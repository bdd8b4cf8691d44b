/** The case endpoints: create, list, get, update, delete, and the trigger
    that snapshots a case's documents and enqueues the analysis job. Every
    lookup is by case id AND owner, so a case of another user answers 404
    exactly like a missing one. */
module CasesApi {
  import opened Common
  import opened ForensicModels
  import opened AgentTools
  import opened Store

  const NotFound := HTTPException(404, "Case not found")
  const NoDocuments := HTTPException(400, "No documents uploaded for this case")

  datatype CaseCreate = CaseCreate(caseName: string, clientName: string, opposingParty: Option<string>, jurisdiction: Option<string>)

  /** The fields set in an update request; `None` is a field the request
      leaves unset. The nullable columns can also be set to null. */
  datatype CaseUpdate = CaseUpdate(
    caseName: Option<string>,
    clientName: Option<string>,
    opposingParty: Option<Option<string>>,
    jurisdiction: Option<Option<string>>,
    status: Option<string>)

  // ---------------------------------------------------------------------
  // Lookup by id and owner

  /** `select(Case).where(id == caseId, user_id == userId)`, one or none. */
  function OwnedCase(cases: seq<CaseRow>, caseId: nat, userId: nat): (r: Option<CaseRow>)
    ensures r.Some? <==> exists i :: 0 <= i < |cases| && cases[i].id == caseId && cases[i].userId == userId
    ensures r.Some? ==> r.value in cases && r.value.id == caseId && r.value.userId == userId
  {
    if |cases| == 0 then None
    else if cases[0].id == caseId && cases[0].userId == userId then Some(cases[0])
    else
      var r := OwnedCase(cases[1..], caseId, userId);
      assert forall i :: 0 <= i < |cases| - 1 ==> cases[1..][i] == cases[i + 1];
      r
  }

  /** With distinct ids, the owned case is the row with that id, provided it
      belongs to the user. */
  lemma {:induction false} OwnedCaseIsFindCase(cases: seq<CaseRow>, caseId: nat, userId: nat)
    requires CaseIdsDistinct(cases)
    ensures OwnedCase(cases, caseId, userId) ==
            if FindCase(cases, caseId).Some? && FindCase(cases, caseId).value.userId == userId
            then FindCase(cases, caseId) else None
  {
    if |cases| > 0 && cases[0].id != caseId {
      var rest := cases[1..];
      assert CaseIdsDistinct(rest) by {
        forall i, j | 0 <= i < j < |rest| ensures rest[i].id != rest[j].id {
          assert rest[i] == cases[i + 1] && rest[j] == cases[j + 1];
        }
      }
      OwnedCaseIsFindCase(rest, caseId, userId);
    }
  }

  function GetCase(cases: seq<CaseRow>, caseId: nat, user: UserRow): (r: Result<CaseRow>)
    ensures r.Err? <==> !exists i :: 0 <= i < |cases| && cases[i].id == caseId && cases[i].userId == user.id
    ensures r.Err? ==> r.error == NotFound
    ensures r.Ok? ==> r.value in cases && r.value.id == caseId && r.value.userId == user.id
  {
    match OwnedCase(cases, caseId, user.id)
    case None => Err(NotFound)
    case Some(c) => Ok(c)
  }

  // ---------------------------------------------------------------------
  // create_case

  /** The row `create_case` inserts, before the database assigns its id.
      `create_case` sets no status: the row takes the column default of
      `Case.status`, which is a parameter here. The other columns it leaves
      unset are taken to default to no totals, creation at `now` and no
      update time. */
  function NewCase(request: CaseCreate, user: UserRow, statusDefault: string, caseNumber: string, now: int): CaseRow {
    CaseRow(0, user.id, caseNumber, request.caseName, request.clientName, request.opposingParty,
            Or(request.jurisdiction, user.jurisdiction), statusDefault, None, None, now, None)
  }

  /** The new case belongs to the current user, carries the request's names
      and the generated number, has the column default status, and takes the
      request's jurisdiction unless that is empty, else the user's default. */
  lemma NewCaseOwnedAndDefaulted(request: CaseCreate, user: UserRow, statusDefault: string, caseNumber: string, now: int)
    ensures var c := NewCase(request, user, statusDefault, caseNumber, now);
      && c.userId == user.id
      && c.caseNumber == caseNumber
      && c.caseName == request.caseName && c.clientName == request.clientName
      && c.opposingParty == request.opposingParty
      && c.status == statusDefault
    ensures Truthy(request.jurisdiction) ==> NewCase(request, user, statusDefault, caseNumber, now).jurisdiction == request.jurisdiction
    ensures !Truthy(request.jurisdiction) ==> NewCase(request, user, statusDefault, caseNumber, now).jurisdiction == user.jurisdiction
    ensures NewCase(request, user, statusDefault, caseNumber, now).totalAssets.None?
    ensures NewCase(request, user, statusDefault, caseNumber, now).totalLiabilities.None?
  {
  }

  /** The case number is generated outside the model and passed in. */
  method CreateCase(db: Database, request: CaseCreate, user: UserRow, statusDefault: string, caseNumber: string, now: int)
    returns (created: CaseRow)
    requires db.Valid()
    modifies db
    ensures db.Valid()
    ensures created == NewCase(request, user, statusDefault, caseNumber, now).(id := old(db.nextCaseId))
    ensures db.cases == old(db.cases) + [created]
    ensures db.documents == old(db.documents) && db.reports == old(db.reports)
  {
    created := db.InsertCase(NewCase(request, user, statusDefault, caseNumber, now));
  }

  // ---------------------------------------------------------------------
  // list_cases

  function Where(cases: seq<CaseRow>, p: CaseRow -> bool): (r: seq<CaseRow>)
    ensures forall c :: c in r <==> c in cases && p(c)
    ensures forall i :: 0 <= i < |r| ==> p(r[i])
    ensures |r| <= |cases|
  {
    if |cases| == 0 then []
    else
      var init := Where(cases[..|cases| - 1], p);
      var last := cases[|cases| - 1];
      assert cases == cases[..|cases| - 1] + [last];
      if p(last) then init + [last] else init
  }

  /** The rows `list_cases` selects before ordering and paging: the user's
      cases, and only those with the given status when one is given. */
  function Matching(cases: seq<CaseRow>, userId: nat, status: Option<string>): seq<CaseRow> {
    var owned := Where(cases, (c: CaseRow) => c.userId == userId);
    if Truthy(status) then Where(owned, (c: CaseRow) => c.status == status.value) else owned
  }

  predicate NewestFirst(s: seq<CaseRow>) {
    forall i, j :: 0 <= i < j < |s| ==> s[i].createdAt >= s[j].createdAt
  }

  /** Insert before the first row that is not newer. */
  function InsertByCreated(c: CaseRow, sorted: seq<CaseRow>): (r: seq<CaseRow>)
    ensures |r| == |sorted| + 1
  {
    if |sorted| == 0 then [c]
    else if sorted[0].createdAt <= c.createdAt then [c] + sorted
    else [sorted[0]] + InsertByCreated(c, sorted[1..])
  }

  /** `ORDER BY created_at DESC`. */
  function SortByCreated(s: seq<CaseRow>): (r: seq<CaseRow>)
    ensures |r| == |s|
  {
    if |s| == 0 then [] else InsertByCreated(s[0], SortByCreated(s[1..]))
  }

  lemma {:induction false} InsertByCreatedPermutes(c: CaseRow, sorted: seq<CaseRow>)
    ensures multiset(InsertByCreated(c, sorted)) == multiset(sorted) + multiset{c}
  {
    if |sorted| > 0 && sorted[0].createdAt > c.createdAt {
      assert sorted == [sorted[0]] + sorted[1..];
      InsertByCreatedPermutes(c, sorted[1..]);
    }
  }

  lemma {:induction false} InsertByCreatedBounded(c: CaseRow, sorted: seq<CaseRow>, bound: int)
    requires c.createdAt <= bound
    requires forall i :: 0 <= i < |sorted| ==> sorted[i].createdAt <= bound
    ensures forall i :: 0 <= i < |InsertByCreated(c, sorted)| ==> InsertByCreated(c, sorted)[i].createdAt <= bound
  {
    if |sorted| > 0 && sorted[0].createdAt > c.createdAt {
      var rest := sorted[1..];
      assert forall i :: 0 <= i < |rest| ==> rest[i] == sorted[i + 1];
      InsertByCreatedBounded(c, rest, bound);
    }
  }

  lemma {:induction false} InsertByCreatedSorted(c: CaseRow, sorted: seq<CaseRow>)
    requires NewestFirst(sorted)
    ensures NewestFirst(InsertByCreated(c, sorted))
  {
    if |sorted| > 0 && sorted[0].createdAt > c.createdAt {
      var rest := sorted[1..];
      assert forall i :: 0 <= i < |rest| ==> rest[i] == sorted[i + 1];
      InsertByCreatedSorted(c, rest);
      InsertByCreatedBounded(c, rest, sorted[0].createdAt);
      var ins := InsertByCreated(c, rest);
      var result := [sorted[0]] + ins;
      forall i, j | 0 <= i < j < |result| ensures result[i].createdAt >= result[j].createdAt {
        assert result[j] == ins[j - 1];
        if i > 0 {
          assert result[i] == ins[i - 1];
        }
      }
    }
  }

  /** The ordering is newest first and a permutation of its input. */
  lemma {:induction false} SortByCreatedProperties(s: seq<CaseRow>)
    ensures NewestFirst(SortByCreated(s))
    ensures multiset(SortByCreated(s)) == multiset(s)
  {
    if |s| > 0 {
      SortByCreatedProperties(s[1..]);
      InsertByCreatedSorted(s[0], SortByCreated(s[1..]));
      InsertByCreatedPermutes(s[0], SortByCreated(s[1..]));
      assert s == [s[0]] + s[1..];
    }
  }

  /** `OFFSET skip LIMIT limit`. */
  function Page(s: seq<CaseRow>, skip: nat, limit: nat): (r: seq<CaseRow>)
    ensures |r| == if skip >= |s| then 0 else Min(limit, |s| - skip)
    ensures forall k :: 0 <= k < |r| ==> r[k] == s[skip + k]
  {
    if skip >= |s| then [] else s[skip..skip + Min(limit, |s| - skip)]
  }

  /** SQL applies ORDER BY before OFFSET and LIMIT, whatever order the
      query builder calls come in. */
  function ListCases(cases: seq<CaseRow>, user: UserRow, status: Option<string>, skip: nat, limit: nat): seq<CaseRow> {
    Page(SortByCreated(Matching(cases, user.id, status)), skip, limit)
  }

  /** The query parameters' defaults. */
  const DefaultSkip: nat := 0
  const DefaultLimit: nat := 20

  /** `GET /cases/` without `skip` and `limit`: the first 20 of the matching
      cases sorted newest first, and all of them when there are no more
      than 20. */
  function ListCasesDefault(cases: seq<CaseRow>, user: UserRow, status: Option<string>): (r: seq<CaseRow>)
    ensures |r| == Min(20, |Matching(cases, user.id, status)|)
    ensures |Matching(cases, user.id, status)| <= 20 ==> multiset(r) == multiset(Matching(cases, user.id, status))
    ensures NewestFirst(r)
    ensures forall c :: c in r ==> c in cases && c.userId == user.id
    ensures forall c :: c in r && Truthy(status) ==> c.status == status.value
    ensures forall k :: 0 <= k < |r| ==> r[k] == SortByCreated(Matching(cases, user.id, status))[k]
  {
    ListCasesProperties(cases, user, status, DefaultSkip, DefaultLimit);
    ListCases(cases, user, status, DefaultSkip, DefaultLimit)
  }

  /** The listing holds only the user's cases (with the given status when
      one is given), newest first: exactly the matching rows, sorted newest
      first, from position `skip` on, at most `limit` of them; the first page
      large enough holds every matching case. */
  lemma ListCasesProperties(cases: seq<CaseRow>, user: UserRow, status: Option<string>, skip: nat, limit: nat)
    ensures var r := ListCases(cases, user, status, skip, limit);
      && (forall c :: c in r ==> c in cases && c.userId == user.id)
      && (forall c :: c in r && Truthy(status) ==> c.status == status.value)
      && |r| <= limit
      && NewestFirst(r)
    ensures var r := ListCases(cases, user, status, skip, limit);
      forall k :: 0 <= k < |r| ==> r[k] == SortByCreated(Matching(cases, user.id, status))[skip + k]
    ensures var r := ListCases(cases, user, status, skip, limit);
      |r| == if skip >= |Matching(cases, user.id, status)| then 0 else Min(limit, |Matching(cases, user.id, status)| - skip)
    ensures skip == 0 && |Matching(cases, user.id, status)| <= limit ==>
              multiset(ListCases(cases, user, status, skip, limit)) == multiset(Matching(cases, user.id, status))
    ensures forall c :: c in Matching(cases, user.id, status) <==>
              c in cases && c.userId == user.id && (Truthy(status) ==> c.status == status.value)
  {
    var m := Matching(cases, user.id, status);
    var sorted := SortByCreated(m);
    SortByCreatedProperties(m);
    PageWithin(sorted, skip, limit);
    var r := Page(sorted, skip, limit);
    forall c | c in r ensures c in m {
      assert c in multiset(sorted);
    }
    MatchingMembers(cases, user.id, status);
  }

  /** A page is a stretch of its input: it keeps the order and, from the
      start with room for everything, is the whole input. */
  lemma PageWithin(s: seq<CaseRow>, skip: nat, limit: nat)
    ensures forall c :: c in Page(s, skip, limit) ==> c in s
    ensures NewestFirst(s) ==> NewestFirst(Page(s, skip, limit))
    ensures skip == 0 && |s| <= limit ==> Page(s, skip, limit) == s
  {
    var r := Page(s, skip, limit);
    forall c | c in r ensures c in s {
      var k :| 0 <= k < |r| && r[k] == c;
      assert r[k] == s[skip + k];
    }
    if skip == 0 && |s| <= limit {
      assert r == s;
    }
  }

  lemma MatchingMembers(cases: seq<CaseRow>, userId: nat, status: Option<string>)
    ensures forall c :: c in Matching(cases, userId, status) <==>
              c in cases && c.userId == userId && (Truthy(status) ==> c.status == status.value)
  {
    var owned := Where(cases, (c: CaseRow) => c.userId == userId);
    if Truthy(status) {
      var sel := Where(owned, (c: CaseRow) => c.status == status.value);
      assert Matching(cases, userId, status) == sel;
    } else {
      assert Matching(cases, userId, status) == owned;
    }
  }

  // ---------------------------------------------------------------------
  // update_case

  /** One `(field, value)` pair of `case_update.dict(exclude_unset=True)`. */
  datatype FieldUpdate =
    | SetCaseName(name: string)
    | SetClientName(client: string)
    | SetOpposingParty(party: Option<string>)
    | SetJurisdiction(jurisdiction: Option<string>)
    | SetStatus(status: string)

  function Present<T>(o: Option<T>, f: T -> FieldUpdate): seq<FieldUpdate> {
    match o
    case None => []
    case Some(v) => [f(v)]
  }

  /** The set fields, in declaration order. */
  function UpdateData(u: CaseUpdate): seq<FieldUpdate> {
    Present(u.caseName, v => SetCaseName(v))
    + Present(u.clientName, v => SetClientName(v))
    + Present(u.opposingParty, v => SetOpposingParty(v))
    + Present(u.jurisdiction, v => SetJurisdiction(v))
    + Present(u.status, v => SetStatus(v))
  }

  /** `setattr(case, field, value)` */
  function SetAttr(c: CaseRow, f: FieldUpdate): CaseRow {
    match f
    case SetCaseName(v) => c.(caseName := v)
    case SetClientName(v) => c.(clientName := v)
    case SetOpposingParty(v) => c.(opposingParty := v)
    case SetJurisdiction(v) => c.(jurisdiction := v)
    case SetStatus(v) => c.(status := v)
  }

  /** The assignments performed in order. */
  function SetAll(c: CaseRow, fs: seq<FieldUpdate>): CaseRow {
    if |fs| == 0 then c else SetAttr(SetAll(c, fs[..|fs| - 1]), fs[|fs| - 1])
  }

  /** The reference meaning of an update: each set field takes the request's
      value, every other field keeps the stored one. */
  function Merged(c: CaseRow, u: CaseUpdate): CaseRow {
    c.(caseName := u.caseName.GetOr(c.caseName),
       clientName := u.clientName.GetOr(c.clientName),
       opposingParty := u.opposingParty.GetOr(c.opposingParty),
       jurisdiction := u.jurisdiction.GetOr(c.jurisdiction),
       status := u.status.GetOr(c.status))
  }

  lemma {:induction false} SetAllAppend(c: CaseRow, a: seq<FieldUpdate>, b: seq<FieldUpdate>)
    ensures SetAll(c, a + b) == SetAll(SetAll(c, a), b)
    decreases |b|
  {
    if |b| == 0 {
      assert a + b == a;
    } else {
      assert (a + b)[..|a + b| - 1] == a + b[..|b| - 1];
      assert (a + b)[|a + b| - 1] == b[|b| - 1];
      SetAllAppend(c, a, b[..|b| - 1]);
    }
  }

  /** Assigning the set fields one by one gives the merged row. */
  lemma SetAllIsMerge(c: CaseRow, u: CaseUpdate)
    ensures SetAll(c, UpdateData(u)) == Merged(c, u)
  {
    var p1 := Present(u.caseName, v => SetCaseName(v));
    var p2 := Present(u.clientName, v => SetClientName(v));
    var p3 := Present(u.opposingParty, v => SetOpposingParty(v));
    var p4 := Present(u.jurisdiction, v => SetJurisdiction(v));
    var p5 := Present(u.status, v => SetStatus(v));
    SetAllAppend(c, p1 + p2 + p3 + p4, p5);
    SetAllAppend(c, p1 + p2 + p3, p4);
    SetAllAppend(c, p1 + p2, p3);
    SetAllAppend(c, p1, p2);
    assert SetAll(c, []) == c;
  }

  /** The `for field, value in update_data.items()` loop. */
  method ApplyUpdate(c: CaseRow, u: CaseUpdate) returns (updated: CaseRow)
    ensures updated == Merged(c, u)
  {
    var updateData := UpdateData(u);
    updated := c;
    var i := 0;
    while i < |updateData|
      invariant 0 <= i <= |updateData|
      invariant updated == SetAll(c, updateData[..i])
    {
      assert updateData[..i + 1][..i] == updateData[..i];
      updated := SetAttr(updated, updateData[i]);
      i := i + 1;
    }
    assert updateData[..i] == updateData;
    SetAllIsMerge(c, u);
  }

  /** An update changes only the fields the request sets (and the update
      time); identity, owner, case number and totals stay. */
  lemma MergedChangesOnlySetFields(c: CaseRow, u: CaseUpdate)
    ensures var m := Merged(c, u);
      && m.id == c.id && m.userId == c.userId && m.caseNumber == c.caseNumber && m.createdAt == c.createdAt
      && m.totalAssets == c.totalAssets && m.totalLiabilities == c.totalLiabilities
      && m.caseName == (if u.caseName.Some? then u.caseName.value else c.caseName)
      && m.clientName == (if u.clientName.Some? then u.clientName.value else c.clientName)
      && m.opposingParty == (if u.opposingParty.Some? then u.opposingParty.value else c.opposingParty)
      && m.jurisdiction == (if u.jurisdiction.Some? then u.jurisdiction.value else c.jurisdiction)
      && m.status == (if u.status.Some? then u.status.value else c.status)
  {
  }

  method UpdateCase(db: Database, caseId: nat, u: CaseUpdate, user: UserRow, now: int)
    returns (result: Result<CaseRow>)
    requires db.Valid()
    modifies db
    ensures db.Valid()
    ensures db.documents == old(db.documents) && db.reports == old(db.reports) && db.nextCaseId == old(db.nextCaseId)
    ensures OwnedCase(old(db.cases), caseId, user.id).None? ==> result == Err(NotFound) && db.cases == old(db.cases)
    ensures OwnedCase(old(db.cases), caseId, user.id).Some? ==>
              && result == Ok(Merged(OwnedCase(old(db.cases), caseId, user.id).value, u).(updatedAt := Some(now)))
              && db.cases == UpdateCases(old(db.cases), map[caseId := result.value])
  {
    var found := OwnedCase(db.cases, caseId, user.id);
    if found.None? {
      return Err(NotFound);
    }
    var updated := ApplyUpdate(found.value, u);
    updated := updated.(updatedAt := Some(now));
    db.WriteCase(updated);
    result := Ok(updated);
  }

  // ---------------------------------------------------------------------
  // delete_case

  method DeleteCase(db: Database, caseId: nat, user: UserRow) returns (result: Result<string>)
    requires db.Valid()
    modifies db
    ensures db.Valid()
    ensures db.documents == old(db.documents) && db.reports == old(db.reports)
    ensures OwnedCase(old(db.cases), caseId, user.id).None? ==> result == Err(NotFound) && db.cases == old(db.cases)
    ensures OwnedCase(old(db.cases), caseId, user.id).Some? ==>
              && result == Ok("Case deleted successfully")
              && db.cases == WithoutCase(old(db.cases), caseId)
              && FindCase(db.cases, caseId).None?
  {
    var found := OwnedCase(db.cases, caseId, user.id);
    if found.None? {
      return Err(NotFound);
    }
    db.DeleteCase(caseId);
    result := Ok("Case deleted successfully");
  }

  // ---------------------------------------------------------------------
  // analyze_case

  const AnalyzeTaskName := "app.tasks.analyze_case_task"

  const AnalysisPhaseNames := [
    "Phase 1: Constitutional Verification",
    "Phase 2: Sequential Analysis",
    "Phase 3: Self-Correction & Validation",
    "Phase 4: Strategic Output Generation"]

  datatype AnalyzeResponse = AnalyzeResponse(
    message: string,
    caseId: nat,
    taskId: nat,
    estimatedTime: string,
    analysisPhases: seq<string>)

  /** `case.documents`: the case's own documents, in table order. */
  function CaseDocuments(docs: seq<DocumentRow>, caseId: nat): (r: seq<DocumentRow>)
    ensures forall d :: d in r <==> d in docs && d.caseId == caseId
  {
    if |docs| == 0 then []
    else
      var init := CaseDocuments(docs[..|docs| - 1], caseId);
      var last := docs[|docs| - 1];
      assert docs == docs[..|docs| - 1] + [last];
      if last.caseId == caseId then init + [last] else init
  }

  /** One `doc_data` dict. */
  function SnapshotEntry(d: DocumentRow): DocEntry {
    DocEntry(NatToString(d.id), Some(d.fileType), d.originalFilename, Some(d.status), d.extractedData.GetOr([]))
  }

  /** The `documents_data` loop. */
  method BuildSnapshot(documents: seq<DocumentRow>) returns (documentsData: seq<DocEntry>)
    ensures |documentsData| == |documents|
    ensures forall i :: 0 <= i < |documents| ==> documentsData[i] == SnapshotEntry(documents[i])
  {
    documentsData := [];
    var i := 0;
    while i < |documents|
      invariant 0 <= i <= |documents|
      invariant |documentsData| == i
      invariant forall k :: 0 <= k < i ==> documentsData[k] == SnapshotEntry(documents[k])
    {
      var doc := documents[i];
      var docData := DocEntry(NatToString(doc.id), Some(doc.fileType), doc.originalFilename, Some(doc.status),
                              doc.extractedData.GetOr([]));
      documentsData := documentsData + [docData];
      i := i + 1;
    }
  }

  /** `case.jurisdiction or current_user.jurisdiction or 'California'`. */
  function AnalysisJurisdiction(caseJurisdiction: Option<string>, userJurisdiction: Option<string>): (j: string)
    ensures Truthy(caseJurisdiction) ==> j == caseJurisdiction.value
    ensures !Truthy(caseJurisdiction) && Truthy(userJurisdiction) ==> j == userJurisdiction.value
    ensures !Truthy(caseJurisdiction) && !Truthy(userJurisdiction) ==> j == "California"
    ensures j != ""
  {
    var chosen := Or(caseJurisdiction, userJurisdiction);
    if Truthy(chosen) then chosen.value else "California"
  }

  /** The specification of the trigger: the job it enqueues, or the error
      it answers with. */
  function TriggerJob(cases: seq<CaseRow>, docs: seq<DocumentRow>, caseId: nat, user: UserRow): Result<Job> {
    match OwnedCase(cases, caseId, user.id)
    case None => Err(NotFound)
    case Some(c) =>
      var caseDocs := CaseDocuments(docs, caseId);
      if |caseDocs| == 0 then Err(NoDocuments)
      else Ok(Job(AnalyzeTaskName, caseId,
                  seq(|caseDocs|, i requires 0 <= i < |caseDocs| => SnapshotEntry(caseDocs[i])),
                  UserContext(user.id, user.email, user.fullName),
                  AnalysisJurisdiction(c.jurisdiction, user.jurisdiction)))
  }

  /** 404 when no case has both the id and the user as owner; 400 when the
      case has no documents; otherwise a job for that case, whose snapshot
      has the snapshot entry of each document, in order (so a stringified id
      and always a type), and whose jurisdiction is the case's, else the
      user's, else "California", never empty. */
  lemma TriggerJobProperties(cases: seq<CaseRow>, docs: seq<DocumentRow>, caseId: nat, user: UserRow)
    ensures TriggerJob(cases, docs, caseId, user) == Err(NotFound) <==>
              !exists i :: 0 <= i < |cases| && cases[i].id == caseId && cases[i].userId == user.id
    ensures TriggerJob(cases, docs, caseId, user) == Err(NoDocuments) <==>
              (exists i :: 0 <= i < |cases| && cases[i].id == caseId && cases[i].userId == user.id) &&
              !exists d :: d in docs && d.caseId == caseId
    ensures TriggerJob(cases, docs, caseId, user).Ok? ==>
              var job := TriggerJob(cases, docs, caseId, user).value;
              && job.taskName == AnalyzeTaskName
              && job.caseId == caseId
              && job.userContext == UserContext(user.id, user.email, user.fullName)
              && |job.documents| == |CaseDocuments(docs, caseId)|
              && (forall i :: 0 <= i < |job.documents| ==>
                    && job.documents[i] == SnapshotEntry(CaseDocuments(docs, caseId)[i])
                    && job.documents[i].id == NatToString(CaseDocuments(docs, caseId)[i].id)
                    && job.documents[i].docType.Some?)
              && OwnedCase(cases, caseId, user.id).Some?
              && job.jurisdiction == AnalysisJurisdiction(OwnedCase(cases, caseId, user.id).value.jurisdiction, user.jurisdiction)
              && job.jurisdiction != ""
  {
    var caseDocs := CaseDocuments(docs, caseId);
    if |caseDocs| > 0 {
      assert caseDocs[0] in caseDocs;
    }
  }

  /** Because every snapshot entry carries a type, the bank-statement tool
      never raises on the documents of an enqueued job. */
  lemma TriggeredSnapshotScansSafely(cases: seq<CaseRow>, docs: seq<DocumentRow>, caseId: nat, user: UserRow,
                                     documentId: string)
    requires TriggerJob(cases, docs, caseId, user).Ok?
    ensures BankScan(TriggerJob(cases, docs, caseId, user).value.documents, documentId).Ok?
  {
    var entries := TriggerJob(cases, docs, caseId, user).value.documents;
    TriggerJobProperties(cases, docs, caseId, user);
    BankScanRaises(entries, documentId);
  }

  method AnalyzeCase(db: Database, queue: JobQueue, caseId: nat, user: UserRow) returns (result: Result<AnalyzeResponse>)
    modifies queue
    ensures TriggerJob(db.cases, db.documents, caseId, user).Err? ==>
              result == Err(TriggerJob(db.cases, db.documents, caseId, user).error) && queue.jobs == old(queue.jobs)
    ensures TriggerJob(db.cases, db.documents, caseId, user).Ok? ==>
              && queue.jobs == old(queue.jobs) + [TriggerJob(db.cases, db.documents, caseId, user).value]
              && result == Ok(AnalyzeResponse("Comprehensive forensic analysis started", caseId, |old(queue.jobs)|,
                                              "10-15 minutes", AnalysisPhaseNames))
  {
    var found := OwnedCase(db.cases, caseId, user.id);
    if found.None? {
      return Err(NotFound);
    }
    var c := found.value;
    var caseDocuments := CaseDocuments(db.documents, caseId);
    if |caseDocuments| == 0 {
      return Err(NoDocuments);
    }
    var documentsData := BuildSnapshot(caseDocuments);
    assert documentsData == seq(|caseDocuments|, i requires 0 <= i < |caseDocuments| => SnapshotEntry(caseDocuments[i]));
    var job := Job(AnalyzeTaskName, caseId, documentsData, UserContext(user.id, user.email, user.fullName),
                   AnalysisJurisdiction(c.jurisdiction, user.jurisdiction));
    var taskId := queue.Enqueue(job);
    result := Ok(AnalyzeResponse("Comprehensive forensic analysis started", caseId, taskId, "10-15 minutes",
                                 AnalysisPhaseNames));
  }
}
