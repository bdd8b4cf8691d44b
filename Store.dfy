/** The persistent state the tasks and endpoints work on: the case,
    document and report tables, a database session that stages changes
    until it commits, the log of notification e-mails and the job queue. */
module Store {
  import opened Common
  import opened ForensicModels

  datatype CaseRow = CaseRow(
    id: nat,
    userId: nat,
    caseNumber: string,
    caseName: string,
    clientName: string,
    opposingParty: Option<string>,
    jurisdiction: Option<string>,
    status: string,
    totalAssets: Option<real>,
    totalLiabilities: Option<real>,
    createdAt: int,
    updatedAt: Option<int>)

  datatype DocumentRow = DocumentRow(
    id: nat,
    caseId: nat,
    originalFilename: string,
    fileType: string,
    status: string,
    extractedData: Option<Dict>,
    errorMessage: Option<string>,
    processedAt: Option<int>)

  /** The `metadata` dict of each of the three report kinds. */
  datatype ReportMetadata =
    | ExecutiveMetadata(confidenceDashboard: ConfidenceDashboard, totalAssets: real, netWorth: real, generatedAt: int)
    | ConfidenceMetadata(overallConfidence: string, evidenceRobustness: string, objectivityAssessment: string)
    | DetailedMetadata(analysisPhases: seq<string>, concealmentSchemesDetected: nat, immediateActionsCount: nat)

  datatype ReportRow = ReportRow(caseId: nat, reportType: string, content: string, metadata: ReportMetadata)

  /** The authenticated user; `jurisdiction` is the user's default. */
  datatype UserRow = UserRow(id: nat, email: string, fullName: string, jurisdiction: Option<string>)

  predicate CaseIdsDistinct(cases: seq<CaseRow>) {
    forall i, j :: 0 <= i < j < |cases| ==> cases[i].id != cases[j].id
  }

  predicate DocumentIdsDistinct(docs: seq<DocumentRow>) {
    forall i, j :: 0 <= i < j < |docs| ==> docs[i].id != docs[j].id
  }

  /** `db.get(Case, id)` against the committed table. */
  function FindCase(cases: seq<CaseRow>, id: nat): (r: Option<CaseRow>)
    ensures r.Some? <==> exists i :: 0 <= i < |cases| && cases[i].id == id
    ensures r.Some? ==> exists i :: 0 <= i < |cases| && cases[i].id == id && cases[i] == r.value
  {
    if |cases| == 0 then None
    else if cases[0].id == id then Some(cases[0])
    else
      var r := FindCase(cases[1..], id);
      assert forall i :: 0 <= i < |cases| - 1 ==> cases[1..][i] == cases[i + 1];
      r
  }

  /** `db.get(Document, id)` against the committed table. */
  function FindDocument(docs: seq<DocumentRow>, id: nat): (r: Option<DocumentRow>)
    ensures r.Some? <==> exists i :: 0 <= i < |docs| && docs[i].id == id
    ensures r.Some? ==> exists i :: 0 <= i < |docs| && docs[i].id == id && docs[i] == r.value
  {
    if |docs| == 0 then None
    else if docs[0].id == id then Some(docs[0])
    else
      var r := FindDocument(docs[1..], id);
      assert forall i :: 0 <= i < |docs| - 1 ==> docs[1..][i] == docs[i + 1];
      r
  }

  /** The table after flushing the staged row updates, keyed by id. */
  function UpdateCases(cases: seq<CaseRow>, updates: map<nat, CaseRow>): seq<CaseRow> {
    seq(|cases|, i requires 0 <= i < |cases| => if cases[i].id in updates then updates[cases[i].id] else cases[i])
  }

  function UpdateDocuments(docs: seq<DocumentRow>, updates: map<nat, DocumentRow>): seq<DocumentRow> {
    seq(|docs|, i requires 0 <= i < |docs| => if docs[i].id in updates then updates[docs[i].id] else docs[i])
  }

  /** The table after deleting the row with id `id`. */
  function WithoutCase(cases: seq<CaseRow>, id: nat): (r: seq<CaseRow>)
    ensures forall c :: c in r <==> c in cases && c.id != id
    ensures |r| <= |cases|
  {
    if |cases| == 0 then []
    else if cases[0].id == id then WithoutCase(cases[1..], id)
    else [cases[0]] + WithoutCase(cases[1..], id)
  }

  lemma {:induction false} WithoutCaseDistinct(cases: seq<CaseRow>, id: nat)
    requires CaseIdsDistinct(cases)
    ensures CaseIdsDistinct(WithoutCase(cases, id))
  {
    if |cases| > 0 {
      var rest := cases[1..];
      assert CaseIdsDistinct(rest) by {
        forall i, j | 0 <= i < j < |rest| ensures rest[i].id != rest[j].id {
          assert rest[i] == cases[i + 1] && rest[j] == cases[j + 1];
        }
      }
      WithoutCaseDistinct(rest, id);
      if cases[0].id != id {
        var w := WithoutCase(rest, id);
        forall j | 0 <= j < |w| ensures cases[0].id != w[j].id {
          assert w[j] in rest;
          var k :| 0 <= k < |rest| && rest[k] == w[j];
          assert rest[k] == cases[k + 1];
        }
      }
    }
  }

  /** With distinct ids, looking up a row's id finds that row. */
  lemma {:induction false} FindCaseAt(cases: seq<CaseRow>, k: nat)
    requires CaseIdsDistinct(cases) && k < |cases|
    ensures FindCase(cases, cases[k].id) == Some(cases[k])
  {
    if k > 0 {
      var rest := cases[1..];
      assert rest[k - 1] == cases[k];
      assert CaseIdsDistinct(rest) by {
        forall i, j | 0 <= i < j < |rest| ensures rest[i].id != rest[j].id {
          assert rest[i] == cases[i + 1] && rest[j] == cases[j + 1];
        }
      }
      FindCaseAt(rest, k - 1);
    }
  }

  /** Flushing updates that keep their rows' ids keeps every row's id, so
      the ids stay distinct. */
  lemma UpdateCasesKeepsIds(cases: seq<CaseRow>, updates: map<nat, CaseRow>)
    requires forall id :: id in updates ==> updates[id].id == id
    ensures |UpdateCases(cases, updates)| == |cases|
    ensures forall i :: 0 <= i < |cases| ==> UpdateCases(cases, updates)[i].id == cases[i].id
    ensures CaseIdsDistinct(cases) ==> CaseIdsDistinct(UpdateCases(cases, updates))
  {
    var u := UpdateCases(cases, updates);
    forall i | 0 <= i < |cases| ensures u[i].id == cases[i].id {
      if cases[i].id in updates {
        assert u[i] == updates[cases[i].id];
      }
    }
  }

  /** Updating one case row: the table keeps its length, ids and every other
      row, and the id now finds the new row. */
  lemma UpdateOneCase(cases: seq<CaseRow>, row: CaseRow)
    requires CaseIdsDistinct(cases) && FindCase(cases, row.id).Some?
    ensures |UpdateCases(cases, map[row.id := row])| == |cases|
    ensures forall i :: 0 <= i < |cases| ==> UpdateCases(cases, map[row.id := row])[i].id == cases[i].id
    ensures forall i :: 0 <= i < |cases| && cases[i].id != row.id ==> UpdateCases(cases, map[row.id := row])[i] == cases[i]
    ensures CaseIdsDistinct(UpdateCases(cases, map[row.id := row]))
    ensures FindCase(UpdateCases(cases, map[row.id := row]), row.id) == Some(row)
  {
    var m := map[row.id := row];
    UpdateCasesKeepsIds(cases, m);
    var u := UpdateCases(cases, m);
    forall i | 0 <= i < |cases| && cases[i].id != row.id ensures u[i] == cases[i] {
      assert cases[i].id !in m;
    }
    var k :| 0 <= k < |cases| && cases[k].id == row.id;
    assert u[k] == row;
    FindCaseAt(u, k);
  }

  lemma {:induction false} FindDocumentAt(docs: seq<DocumentRow>, k: nat)
    requires DocumentIdsDistinct(docs) && k < |docs|
    ensures FindDocument(docs, docs[k].id) == Some(docs[k])
  {
    if k > 0 {
      var rest := docs[1..];
      assert rest[k - 1] == docs[k];
      assert DocumentIdsDistinct(rest) by {
        forall i, j | 0 <= i < j < |rest| ensures rest[i].id != rest[j].id {
          assert rest[i] == docs[i + 1] && rest[j] == docs[j + 1];
        }
      }
      FindDocumentAt(rest, k - 1);
    }
  }

  lemma UpdateDocumentsKeepsIds(docs: seq<DocumentRow>, updates: map<nat, DocumentRow>)
    requires forall id :: id in updates ==> updates[id].id == id
    ensures |UpdateDocuments(docs, updates)| == |docs|
    ensures forall i :: 0 <= i < |docs| ==> UpdateDocuments(docs, updates)[i].id == docs[i].id
    ensures DocumentIdsDistinct(docs) ==> DocumentIdsDistinct(UpdateDocuments(docs, updates))
  {
    var u := UpdateDocuments(docs, updates);
    forall i | 0 <= i < |docs| ensures u[i].id == docs[i].id {
      if docs[i].id in updates {
        assert u[i] == updates[docs[i].id];
      }
    }
  }

  /** Updating one document row, as `UpdateOneCase` for cases. */
  lemma UpdateOneDocument(docs: seq<DocumentRow>, row: DocumentRow)
    requires DocumentIdsDistinct(docs) && FindDocument(docs, row.id).Some?
    ensures |UpdateDocuments(docs, map[row.id := row])| == |docs|
    ensures forall i :: 0 <= i < |docs| ==> UpdateDocuments(docs, map[row.id := row])[i].id == docs[i].id
    ensures forall i :: 0 <= i < |docs| && docs[i].id != row.id ==> UpdateDocuments(docs, map[row.id := row])[i] == docs[i]
    ensures DocumentIdsDistinct(UpdateDocuments(docs, map[row.id := row]))
    ensures FindDocument(UpdateDocuments(docs, map[row.id := row]), row.id) == Some(row)
  {
    var m := map[row.id := row];
    UpdateDocumentsKeepsIds(docs, m);
    var u := UpdateDocuments(docs, m);
    forall i | 0 <= i < |docs| && docs[i].id != row.id ensures u[i] == docs[i] {
      assert docs[i].id !in m;
    }
    var k :| 0 <= k < |docs| && docs[k].id == row.id;
    assert u[k] == row;
    FindDocumentAt(u, k);
  }

  class Database {
    var cases: seq<CaseRow>
    var documents: seq<DocumentRow>
    var reports: seq<ReportRow>
    /** The next value of the cases' id sequence. */
    var nextCaseId: nat

    ghost predicate Valid()
      reads this
    {
      CaseIdsDistinct(cases) &&
      DocumentIdsDistinct(documents) &&
      forall i :: 0 <= i < |cases| ==> cases[i].id < nextCaseId
    }

    constructor()
      ensures Valid()
      ensures cases == [] && documents == [] && reports == [] && nextCaseId == 1
    {
      cases, documents, reports, nextCaseId := [], [], [], 1;
    }

    /** INSERT of a new case: the row gets the next id. */
    method InsertCase(row: CaseRow) returns (inserted: CaseRow)
      requires Valid()
      modifies this
      ensures Valid()
      ensures inserted == row.(id := old(nextCaseId))
      ensures cases == old(cases) + [inserted]
      ensures nextCaseId == old(nextCaseId) + 1
      ensures documents == old(documents) && reports == old(reports)
    {
      inserted := row.(id := nextCaseId);
      cases := cases + [inserted];
      nextCaseId := nextCaseId + 1;
    }

    /** UPDATE of one case row, matched by id. */
    method WriteCase(row: CaseRow)
      requires Valid()
      modifies this
      ensures Valid()
      ensures cases == UpdateCases(old(cases), map[row.id := row])
      ensures documents == old(documents) && reports == old(reports) && nextCaseId == old(nextCaseId)
    {
      cases := UpdateCases(cases, map[row.id := row]);
    }

    /** DELETE of one case row. */
    method DeleteCase(id: nat)
      requires Valid()
      modifies this
      ensures Valid()
      ensures cases == WithoutCase(old(cases), id)
      ensures documents == old(documents) && reports == old(reports) && nextCaseId == old(nextCaseId)
    {
      WithoutCaseDistinct(cases, id);
      cases := WithoutCase(cases, id);
      forall i | 0 <= i < |cases| ensures cases[i].id < nextCaseId {
        assert cases[i] in old(cases);
      }
    }
  }

  /** `SessionLocal()`: changes are staged (new reports, modified rows) and
      reach the database only on `Commit`; a session left without commit
      changes nothing. */
  class Session {
    const db: Database
    var pendingReports: seq<ReportRow>
    var pendingCases: map<nat, CaseRow>
    var pendingDocuments: map<nat, DocumentRow>

    ghost predicate Valid()
      reads this
    {
      (forall k :: k in pendingCases ==> pendingCases[k].id == k) &&
      (forall k :: k in pendingDocuments ==> pendingDocuments[k].id == k)
    }

    constructor(db: Database)
      ensures this.db == db && Valid()
      ensures pendingReports == [] && pendingCases == map[] && pendingDocuments == map[]
    {
      this.db := db;
      pendingReports, pendingCases, pendingDocuments := [], map[], map[];
    }

    /** `db.get(Case, id)` through the session's identity map: the staged
        copy if the session has one, else the committed row. */
    function GetCase(id: nat): (r: Option<CaseRow>)
      reads this, db
      ensures r.Some? <==> id in pendingCases || exists i :: 0 <= i < |db.cases| && db.cases[i].id == id
      ensures Valid() && r.Some? ==> r.value.id == id
      ensures id !in pendingCases && r.Some? ==> r.value in db.cases
    {
      if id in pendingCases then Some(pendingCases[id]) else FindCase(db.cases, id)
    }

    /** `db.get(Document, id)` through the identity map. */
    function GetDocument(id: nat): (r: Option<DocumentRow>)
      reads this, db
      ensures r.Some? <==> id in pendingDocuments || exists i :: 0 <= i < |db.documents| && db.documents[i].id == id
      ensures Valid() && r.Some? ==> r.value.id == id
      ensures id !in pendingDocuments && r.Some? ==> r.value in db.documents
    {
      if id in pendingDocuments then Some(pendingDocuments[id]) else FindDocument(db.documents, id)
    }

    /** `db.add(report)` */
    method AddReport(report: ReportRow)
      modifies this
      ensures pendingReports == old(pendingReports) + [report]
      ensures pendingCases == old(pendingCases) && pendingDocuments == old(pendingDocuments)
    {
      pendingReports := pendingReports + [report];
    }

    /** Attribute assignments on a case loaded in this session. */
    method StageCase(row: CaseRow)
      requires Valid()
      modifies this
      ensures Valid()
      ensures pendingCases == old(pendingCases)[row.id := row]
      ensures pendingReports == old(pendingReports) && pendingDocuments == old(pendingDocuments)
    {
      pendingCases := pendingCases[row.id := row];
    }

    method StageDocument(row: DocumentRow)
      requires Valid()
      modifies this
      ensures Valid()
      ensures pendingDocuments == old(pendingDocuments)[row.id := row]
      ensures pendingReports == old(pendingReports) && pendingCases == old(pendingCases)
    {
      pendingDocuments := pendingDocuments[row.id := row];
    }

    /** `await db.commit()`: all staged changes at once. */
    method Commit()
      requires Valid() && db.Valid()
      modifies this, db
      ensures db.Valid()
      ensures db.cases == UpdateCases(old(db.cases), old(pendingCases))
      ensures db.documents == UpdateDocuments(old(db.documents), old(pendingDocuments))
      ensures db.reports == old(db.reports) + old(pendingReports)
      ensures db.nextCaseId == old(db.nextCaseId)
      ensures pendingReports == [] && pendingCases == map[] && pendingDocuments == map[]
    {
      db.cases := UpdateCases(db.cases, pendingCases);
      db.documents := UpdateDocuments(db.documents, pendingDocuments);
      db.reports := db.reports + pendingReports;
      pendingReports, pendingCases, pendingDocuments := [], map[], map[];
    }
  }

  /** One call of `send_case_completion_email`. */
  datatype Notification = Notification(
    toEmail: string,
    userName: string,
    caseId: nat,
    summary: string,
    confidenceLevel: string,
    isError: bool)

  /** The e-mails sent, in order. */
  class Outbox {
    var sent: seq<Notification>

    constructor()
      ensures sent == []
    {
      sent := [];
    }

    method Send(n: Notification)
      modifies this
      ensures sent == old(sent) + [n]
    {
      sent := sent + [n];
    }
  }

  /** A `send_task` message: the task name and its arguments. */
  datatype Job = Job(taskName: string, caseId: nat, documents: seq<DocEntry>, userContext: UserContext, jurisdiction: string)

  class JobQueue {
    var jobs: seq<Job>

    constructor()
      ensures jobs == []
    {
      jobs := [];
    }

    /** Enqueue a job; its task id is its position in the queue. */
    method Enqueue(job: Job) returns (taskId: nat)
      modifies this
      ensures jobs == old(jobs) + [job]
      ensures taskId == |old(jobs)|
    {
      taskId := |jobs|;
      jobs := jobs + [job];
    }
  }
}
