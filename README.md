# Falcon forensic analysis core, modelled in Dafny

Falcon is a divorce-case forensic service. A lawyer creates a case, uploads
documents and asks for an analysis. The API checks ownership and that the
case has documents. It then snapshots the documents and enqueues a
background job. The job runs a language-model agent that must return one
structured `ForensicOutput`, in which every finding carries a confidence
level (High, Medium, Low or Uncertain). The job renders three reports
from that output (executive, confidence, detailed), saves them together
with the case's new status and totals in one commit, and e-mails the
user. On any exception it marks the case `analysis_failed`, sends an error
e-mail and re-raises.

This project models the following:

- **AgentTools** models the agent's five deterministic tools: document verification, the bank-statement scan, crypto-exchange detection, the Moore/Marsden apportionment and the settlement scenarios.
- **DocumentSummary** models the document summary put into the prompt.
- **ForensicService** models the prompt itself and the call to the agent.
- **Reports** models the report dispatch and the formatters used by the reports.
- **Tasks** models the two background tasks, as methods over a store whose sessions stage their changes until commit.
- **CasesApi** models the case endpoints.
- **Store** holds the tables, the database session, the e-mail log and the job queue.
- **Common** holds the Python values the code relies on: `Option` and `Result`, the exceptions, dicts with insertion order, and truthiness.

Each loop of the source is a method proved against a specification
function. The properties of the source are lemmas about those functions.

## Model

| member | source | states |
|---|---|---|
| AgentTools.FindDocument | app/services/ai_agent_v3.py:206 | The first entry with the identifier; none exactly when no entry has it. |
| AgentTools.VerifyDocumentAuthenticity | app/services/ai_agent_v3.py:201-226 | Missing id: the Unknown/Not Found/Cannot Verify record with Uncertain confidence and the fixed gap and priority. First match without a type: KeyError('type'). Otherwise: the document's type, Complete, Verified, High, no gaps. |
| AgentTools.AnalyzeBankStatements | app/services/ai_agent_v3.py:230-248 | The loop's result equals the scan specification `BankScan`. |
| AgentTools.BankScanFindsStatement | app/services/ai_agent_v3.py:235-248 | When every entry has a type: the fixed observations come back iff some entry has the id and type bank_statement. Otherwise the "Document not found or not a bank statement" / Uncertain record. |
| AgentTools.BankScanRaises | app/services/ai_agent_v3.py:235-236 | The scan raises KeyError('type') iff an entry with the id and no type comes before every matching bank statement. |
| AgentTools.AnyMentionsExchange | app/services/ai_agent_v3.py:260 | True iff some record, lowered, contains "coinbase" or "kraken". |
| AgentTools.DetectCryptocurrencyActivity | app/services/ai_agent_v3.py:252-275 | Findings iff some record mentions an exchange; then the total is the sum of the three tiers (85000), with High/Medium/Low tier confidences. |
| AgentTools.AnySpellingDetected | app/services/ai_agent_v3.py:260 | Detection is case-insensitive: any spelling of coinbase/kraken in any record triggers findings. |
| AgentTools.CalculateMooreMarsden | app/services/ai_agent_v3.py:279-312 | A non-separate or missing source gives the insufficient-data record with Uncertain confidence. A separate source with zero or missing price raises ZeroDivisionError. Otherwise the separate share satisfies sep·pp = dp·pp + (cv−pp)·dp, the community share its counterpart, and the confidence is High. |
| AgentTools.MooreMarsdenExample | app/services/ai_agent_v3.py:292-305 | A worked instance of the apportionment. |
| AgentTools.AnyConcealment | app/services/ai_agent_v3.py:340 | True iff some asset's lowered notes contain "concealment". |
| AgentTools.MonteCarloSettlementSimulation | app/services/ai_agent_v3.py:316-352 | One or two scenarios, two iff some note mentions concealment. The first is the 50/50 split with probability 0.6 and expected value total/2. The second has 0.65·total and probability 0.3, and its division sums to the total. |
| DocumentSummary.PrepareDocumentSummary | app/services/ai_agent_v3.py:403-428 | The summary is the summary lines, joined by newlines. |
| DocumentSummary.GroupByType | app/services/ai_agent_v3.py:408-413 | The dict's keys are the types in insertion order; each list is that type's group. |
| DocumentSummary.AppendDocumentLines | app/services/ai_agent_v3.py:418-426 | Appends each document's line, plus a data line when it has extracted data. |
| DocumentSummary.TypesAreThoseOfDocuments | app/services/ai_agent_v3.py:409-413 | A type is a header iff some document has it (missing type = 'unknown'). |
| DocumentSummary.GroupOfAbsentType | app/services/ai_agent_v3.py:411-412 | A type not yet seen has an empty group. |
| DocumentSummary.TypesDistinct | app/services/ai_agent_v3.py:411-412 | No type is listed twice. |
| DocumentSummary.TypesInFirstAppearanceOrder | app/services/ai_agent_v3.py:409-416 | Types are listed in order of first appearance. |
| DocumentSummary.GroupContents | app/services/ai_agent_v3.py:409-413 | A group holds exactly the documents of its type, with multiplicity. |
| DocumentSummary.AllGroupsContents | app/services/ai_agent_v3.py:416-418 | Concatenating the groups of distinct types keeps exactly the documents of those types. |
| DocumentSummary.EveryDocumentOnce | app/services/ai_agent_v3.py:409-418 | The groups together are a permutation of the input: each document is listed once. |
| ForensicService.AnalyzeCase | app/services/ai_agent_v3.py:361-401 | The agent receives the jurisdiction prompt built from the prepared summary, and dependencies holding exactly the call's arguments. The result is the agent's. |
| ForensicService.ContainsInfix | app/services/ai_agent_v3.py:384-394 | Any string occurs inside a concatenation around it (used for the prompt). |
| ForensicService.ContainsExtended | app/services/ai_agent_v3.py:384-394 | Text found in a string is still found once more text follows (used for the prompt). |
| ForensicService.PromptCarriesSummary | app/services/ai_agent_v3.py:384-394 | The prompt contains the jurisdiction and the document summary verbatim. |
| Reports.GetOrMedium | app/services/ai_agent_v3.py:513-514 | `d.get(key, 'Medium')`: a missing key gives "Medium", a string value that string. |
| Reports.FormatActions | app/services/ai_agent_v3.py:509-519 | The loop's result is the joined action lines, or the first line's exception. |
| Reports.ActionsRender | app/services/ai_agent_v3.py:509-519 | Renders iff every action has an 'action' key, one line per action; otherwise KeyError('action'). |
| Reports.FormatLeveragePoints | app/services/ai_agent_v3.py:521-531 | The loop's result is the joined leverage lines, or the first exception. |
| Reports.LeverageRenders | app/services/ai_agent_v3.py:521-531 | Renders iff every point has a 'leverage' key, one line per point; otherwise KeyError('leverage'). |
| Reports.ScenarioEntries | app/services/ai_agent_v3.py:536 | Exactly the first min(3, n) scenarios, each rendered. |
| Reports.FormatSettlementScenarios | app/services/ai_agent_v3.py:533-544 | The loop's result is the top-three entries joined by newlines. |
| Reports.VerificationLines | app/services/ai_agent_v3.py:552-556 | One line per verification, in order. |
| Reports.FormatDocumentVerification | app/services/ai_agent_v3.py:546-557 | The loop's result is the verification lines joined. |
| Reports.AssetConfidenceLines | app/services/ai_agent_v3.py:562-566 | One line per asset, in order. |
| Reports.FormatAssetConfidence | app/services/ai_agent_v3.py:559-567 | The loop's result is the asset lines joined. |
| Reports.FormatConcealmentConfidence | app/services/ai_agent_v3.py:569-585 | The loop's result equals the concealment text specification. |
| Reports.ConcealmentRenders | app/services/ai_agent_v3.py:569-585 | No schemes gives the fixed message. The text renders iff every scheme has an amount; otherwise the TypeError of formatting None. |
| Reports.GenerateExecutiveReport | app/services/ai_agent_v3.py:443-475 | The executive report is the f-string over the formatted actions, leverage points and scenarios; an exception of a formatter propagates. |
| Reports.GenerateConfidenceReport | app/services/ai_agent_v3.py:477-503 | The confidence report is the f-string over the verification, asset and concealment texts; an exception propagates. |
| Reports.GenerateReport | app/services/ai_agent_v3.py:430-441 | "executive" and "confidence" select their reports; every other type gives the JSON dump. |
| Reports.ReportsRaiseOnlyOn | app/services/ai_agent_v3.py:430-585 | The detailed report never raises. The executive report raises iff an action or leverage point lacks its name key. The confidence report raises iff a scheme lacks an amount. |
| Reports.ExecutiveReportOk | app/services/ai_agent_v3.py:436-437 | The executive report renders iff the actions and the leverage points both render. |
| Reports.ConfidenceReportOk | app/services/ai_agent_v3.py:438-441 | The detailed report always renders; the confidence report renders iff the concealment text does. |
| Store.FindCase | app/tasks.py:120 | The committed-table part of `db.get(Case, id)`: found iff a row has the id, and the row found has it. |
| Store.FindDocument | app/tasks.py:224 | The committed-table part of `db.get(Document, id)`: found iff a row has the id. |
| Store.WithoutCase | app/api/endpoints/cases.py:172 | Deleting keeps exactly the rows with another id. |
| Store.WithoutCaseDistinct | app/api/endpoints/cases.py:172-173 | Deletion keeps case ids distinct. |
| Store.FindCaseAt | app/tasks.py:120 | With distinct ids, looking up a row's id finds that row. |
| Store.UpdateCasesKeepsIds | app/tasks.py:127 | Flushing updates that keep their rows' ids keeps length, every id, and distinctness. |
| Store.UpdateOneCase | app/tasks.py:121-127 | Flushing one case update keeps length, ids and every other row, and the id then finds the new row. |
| Store.FindDocumentAt | app/tasks.py:224 | With distinct ids, the lookup of a document's id finds it. |
| Store.UpdateDocumentsKeepsIds | app/tasks.py:229 | The same for the document table. |
| Store.UpdateOneDocument | app/tasks.py:225-229 | Flushing one document update keeps every other row; the id finds the new row. |
| Store.Database.InsertCase | app/api/endpoints/cases.py:71-73 | The inserted row gets the next id and is appended; ids stay distinct. |
| Store.Database.WriteCase | app/api/endpoints/cases.py:147 | The row with that id is replaced; nothing else changes. |
| Store.Database.DeleteCase | app/api/endpoints/cases.py:172-173 | The row with that id is removed; nothing else changes. |
| Store.Session.GetCase | app/tasks.py:120 | `db.get(Case, id)` in a session: found iff the session staged the case or the table holds it; a staged copy has the id, an unstaged one is a committed row. |
| Store.Session.GetDocument | app/tasks.py:224 | `db.get(Document, id)` in a session, as for cases. |
| Store.Session.AddReport | app/tasks.py:90 | `db.add`: the report is staged, nothing is written. |
| Store.Session.StageCase | app/tasks.py:121-125 | Attribute assignments on a loaded case are staged. |
| Store.Session.StageDocument | app/tasks.py:225-228 | Attribute assignments on a loaded document are staged. |
| Store.Session.Commit | app/tasks.py:127 | All staged reports are appended and all staged rows written at once, keeping ids distinct. |
| Store.Outbox.Send | app/tasks.py:130-136 | Each e-mail is appended to the log. |
| Store.JobQueue.Enqueue | app/api/endpoints/cases.py:221-233 | The job is appended and its id returned. |
| Tasks.AnalyzeCaseTask | app/tasks.py:51-171 | The final cases, reports, e-mails and result are those of `AnalyzeRun` on the agent's answer. |
| Tasks.GenerateReports | app/tasks.py:60-74 | The three reports are generated in order, before any database work; the first exception wins. |
| Tasks.StageAnalysis | app/tasks.py:77-125 | Stages exactly the three report rows with their metadata, and the completed case when it exists. |
| Tasks.SaveAnalysis | app/tasks.py:77-147 | The success path from the session on agrees with `AnalyzeRun`, including an exception just before or after the commit. |
| Tasks.RecordFailure | app/tasks.py:149-171 | Marks an existing case failed (status and time only), adds no report, sends one error e-mail, and re-raises the same exception. |
| Tasks.GeneratedExactlyWhen | app/tasks.py:53-74 | Reports are produced iff the agent answered and every action and leverage point has its name and every scheme an amount. The texts are the three rendered reports, and an agent exception propagates unchanged. |
| Tasks.GenerateAllOk | app/tasks.py:60-74 | The three reports are generated iff the executive and confidence reports render; the texts are the three reports. |
| Tasks.RunSuccess | app/tasks.py:77-147 | Success adds exactly three reports for the case, of types executive_summary, confidence_analysis and detailed_forensic, holding the rendered texts. An existing case becomes analysis_complete with the output's totals; a missing one changes nothing. One completion e-mail is sent. The result has status "completed", the three report names and the two counts. |
| Tasks.RunFailureBeforeCommit | app/tasks.py:77-127 | An exception before the commit leaves no new report. An existing case keeps its totals and gets only analysis_failed and a new time. |
| Tasks.RunFailureAfterCommit | app/tasks.py:127-171 | An exception after the commit keeps the three committed reports. The case keeps the committed totals and ends analysis_failed. |
| Tasks.RunFailureNotifies | app/tasks.py:149-171 | Every failure sends exactly one e-mail with "Analysis failed: " + str(e), confidence "N/A" and the error flag; an existing case ends analysis_failed. |
| Tasks.RunFrame | app/tasks.py:51-171 | Reports are only appended, exactly one e-mail is sent, and no case other than the analysed one changes. |
| Tasks.AmountlessSchemeFailsTask | app/tasks.py:66-69 | A scheme without an estimated amount makes the whole task fail with the formatter's TypeError, and no report is saved. |
| Tasks.MarkCompletedFrame | app/tasks.py:120-125 | The success update keeps ids distinct and touches only the analysed case. |
| Tasks.MarkFailedFrame | app/tasks.py:155-159 | The failure update keeps ids distinct and touches only the analysed case. |
| Tasks.ProcessDocumentTask | app/tasks.py:191-247 | The final documents and result are those of `ProcessRun` on the extraction outcome. Only pdf/csv/xlsx/xls are extracted; the cases and reports are untouched. |
| Tasks.RecordProcessingFailure | app/tasks.py:237-247 | An existing document becomes processing_failed with str(e); the exception is re-raised; nothing else changes. |
| Tasks.ProcessSuccess | app/tasks.py:221-235 | An existing document becomes processed with the data and a time; others are untouched; the result is "success" with the data. |
| Tasks.ProcessFailure | app/tasks.py:237-247 | On error the document keeps its data and processing time, gets processing_failed and the message, and the exception is re-raised. |
| Tasks.UnrecognisedTypeSucceeds | app/tasks.py:192-219 | A file type without an extractor still succeeds, with empty data. |
| CasesApi.OwnedCase | app/api/endpoints/cases.py:107-110 | Found iff some row has both the id and the user as owner. |
| CasesApi.OwnedCaseIsFindCase | app/api/endpoints/cases.py:107-110 | With distinct ids, the owned lookup is the id lookup restricted to the owner. |
| CasesApi.GetCase | app/api/endpoints/cases.py:100-118 | 404 "Case not found" iff no case has both id and owner; otherwise that case. |
| CasesApi.NewCaseOwnedAndDefaulted | app/api/endpoints/cases.py:62-69 | The new case belongs to the user and carries the request's names, party and the generated number. Its status is the column default, given as a parameter. Its jurisdiction is the request's unless empty or missing, else the user's. Under the assumed column defaults it has no totals. |
| CasesApi.CreateCase | app/api/endpoints/cases.py:52-75 | Appends the new case with the next id and returns it. |
| CasesApi.Where | app/api/endpoints/cases.py:87-90 | A WHERE clause keeps exactly the rows that satisfy it. |
| CasesApi.MatchingMembers | app/api/endpoints/cases.py:87-90 | A case is selected iff it is the user's and, when a status is given, has it. |
| CasesApi.InsertByCreatedPermutes | app/api/endpoints/cases.py:92 | Insertion adds exactly the one row. |
| CasesApi.InsertByCreatedBounded | app/api/endpoints/cases.py:92 | Insertion keeps an upper bound on creation times. |
| CasesApi.InsertByCreatedSorted | app/api/endpoints/cases.py:92 | Insertion keeps newest-first order. |
| CasesApi.SortByCreated | app/api/endpoints/cases.py:92 | Ordering keeps the number of rows. |
| CasesApi.SortByCreatedProperties | app/api/endpoints/cases.py:92 | ORDER BY created_at DESC is newest first and a permutation. |
| CasesApi.Page | app/api/endpoints/cases.py:92 | OFFSET/LIMIT returns min(limit, n − skip) rows starting at skip. |
| CasesApi.PageWithin | app/api/endpoints/cases.py:92 | A page holds only rows of its input and keeps its order; from the start with room for all, it is the whole input. |
| CasesApi.ListCasesProperties | app/api/endpoints/cases.py:78-97 | The page is exactly the matching cases sorted newest first, from position skip on, min(limit, n − skip) of them. Matching means the user's cases, with the given status when one is given. A first page large enough holds every matching case. |
| CasesApi.ListCasesDefault | app/api/endpoints/cases.py:78-97 | With the default `skip=0, limit=20`: the first min(20, n) of the matching cases sorted newest first. They are only the user's, with the given status when one is given, and all of them when at most 20 match. |
| CasesApi.SetAllAppend | app/api/endpoints/cases.py:142-143 | Assigning a concatenation is assigning the parts in turn. |
| CasesApi.SetAllIsMerge | app/api/endpoints/cases.py:141-143 | The setattr loop over the set fields gives the merged row. |
| CasesApi.ApplyUpdate | app/api/endpoints/cases.py:141-143 | The loop's result is the merged row: set fields take the request's values, others keep theirs. |
| CasesApi.MergedChangesOnlySetFields | app/api/endpoints/cases.py:141-143 | Id, owner, case number, creation time and totals never change; each field changes only when set. |
| CasesApi.UpdateCase | app/api/endpoints/cases.py:121-150 | 404 with nothing written for a missing or foreign case; otherwise the merged row with a fresh update time is written and returned. |
| CasesApi.DeleteCase | app/api/endpoints/cases.py:153-175 | 404 with nothing written for a missing or foreign case; otherwise the row is gone and the fixed message is returned. |
| CasesApi.CaseDocuments | app/api/endpoints/cases.py:197 | `case.documents` holds exactly the documents of the case. |
| CasesApi.BuildSnapshot | app/api/endpoints/cases.py:209-218 | One entry per document in order: stringified id, type, filename, status, extracted data defaulting to an empty dict. |
| CasesApi.AnalysisJurisdiction | app/api/endpoints/cases.py:231 | The case's jurisdiction, else the user's, else "California"; never empty. |
| CasesApi.TriggerJobProperties | app/api/endpoints/cases.py:185-233 | Gives 404 iff no case matches id and owner, and 400 iff it matches but has no documents. Otherwise the job is for that case and user. It holds the snapshot entry of each of the case's documents, in order, each with a type. Its jurisdiction is the case's, else the user's, else "California". |
| CasesApi.TriggeredSnapshotScansSafely | app/api/endpoints/cases.py:209-218 | On an enqueued snapshot the bank-statement tool cannot raise. |
| CasesApi.AnalyzeCase | app/api/endpoints/cases.py:178-246 | On 404 or 400 nothing is enqueued. Otherwise exactly the specified job is enqueued, and the response carries its task id. |

## Left out

- The language-model run (`agent.run`), the system prompt file and `add_case_context` are parameters. The agent is a function from request to output or exception, so output validation failures are exceptions it returns.
- Number formatting (`:,.2f`, `*100:.0f`), `str()` of enum members and `json.dumps` are the abstract `Renderer`. The model fixes where each rendered value goes in the report text, but not its digits.
- `CalculateMooreMarsden`: the property values, when present, are numbers. A present `null` or non-numeric value, which makes the source's arithmetic raise TypeError, is not modelled; an absent value takes the default 0.
- `CalculateMooreMarsden`, `MonteCarloSettlementSimulation` and `TotalValue`: floats are exact reals. Rounding is not modelled: neither the divisions and products nor the order of `sum`'s additions, which `TotalValue` folds from the right.
- `MonteCarloSettlementSimulation`: the unused `num_simulations` parameter is dropped.
- `Lower`/`Upper` fold ASCII letters only; Python's Unicode case mapping is not modelled.
- Snapshot entries always carry `id`, `filename` and `extracted_data`; only `type` and `status` may be missing, and each, when present, is a string. Not modelled: a KeyError on the former; the AttributeError of `'type': None` reaching `.upper()`; the "Status: None" line a `'status': None` would render.
- The e-mail composition and SMTP (`app/services/email.py`) are not part of this model; the outbox records each call's arguments.
- Celery wiring is not modelled; the time limits are constants only.
- PDF and spreadsheet extraction are an `Extractor` parameter: its dict, or the exception the library raises.
- Database errors inside the except blocks are not modelled. Exceptions from outside the code (the soft time limit, the database, the mail code) in `analyze_case_task` are the `fault` input, raised just before or just after the commit. The hard time limit (tasks.py line 27) kills the worker without running the except block: no failure marking and no e-mail. That outcome is not modelled.
- `Tasks.ProcessDocumentTask`: a database error during the success commit (which would reach the except block) is not modelled.
- Foreign-key constraints are not modelled: reports for a missing case are committed, as the code does.
- Clock values (`datetime.utcnow()`) are one `now` parameter per call; the case number (uuid and current year) is an input to `CreateCase`.
- `CasesApi.DeleteCase`: the ORM cascade to documents and reports is not modelled; only the case row is removed.
- `CasesApi.NewCase`: the Case model's column defaults are not part of this model. The status default is a parameter. The model assumes no totals, `created_at` equal to `now`, and no `updated_at`.
- `CasesApi.ListCasesProperties`: `skip` and `limit` are naturals; negative values (a database error) are not modelled.
- `CasesApi.UpdateCase`: an explicit null for a non-nullable column (name, client, status) is not modelled; those fields are either set to a string or unset.
- `CasesApi.SortByCreated`: rows with equal creation times are kept in input order; SQL leaves their order unspecified.
- `Common.Describe`: a ZeroDivisionError renders as "division by zero", Python's text for integer operands; for float operands Python says "float division by zero", which the model, with numbers as reals, does not distinguish.
- The `print` of the error in the `analyze_case_task` except block is console output and is not modelled.
- `Store.JobQueue.Enqueue`: the task id is the job's position in the queue; Celery's `task.id` is a UUID string.
- `get_current_user`, authentication and the response-model conversion are not modelled.
