/** The document summary put into the agent's prompt: documents grouped by
    type, the types in order of first appearance, each with its count, and
    under each type one line per document (plus a "Data available" line
    when the document has extracted data). */
module DocumentSummary {
  import opened Common
  import opened ForensicModels

  /** `doc.get('type', 'unknown')` */
  function TypeOf(d: DocEntry): string {
    d.docType.GetOr("unknown")
  }

  /** The keys of the grouping dict, in insertion order. */
  function Types(docs: seq<DocEntry>): seq<string> {
    if |docs| == 0 then []
    else
      var prior := Types(docs[..|docs| - 1]);
      var t := TypeOf(docs[|docs| - 1]);
      if t in prior then prior else prior + [t]
  }

  /** The list the grouping dict holds for type `t`. */
  function Group(docs: seq<DocEntry>, t: string): seq<DocEntry> {
    if |docs| == 0 then []
    else Group(docs[..|docs| - 1], t) + (if TypeOf(docs[|docs| - 1]) == t then [docs[|docs| - 1]] else [])
  }

  function Header(t: string, count: nat): string {
    "\n" + Upper(t) + " (" + NatToString(count) + " documents):"
  }

  function DocumentLine(d: DocEntry): string {
    "  - " + d.filename + " (ID: " + d.id + ", Status: " + d.status.GetOr("uploaded") + ")"
  }

  function DataLine(d: DocEntry): string {
    "    Data available: " + Join(Keys(d.extractedData), ", ")
  }

  /** The lines of one document: the data line only when the extracted data
      is non-empty. */
  function DocLines(d: DocEntry): seq<string> {
    [DocumentLine(d)] + (if |d.extractedData| > 0 then [DataLine(d)] else [])
  }

  function GroupLines(group: seq<DocEntry>): seq<string> {
    if |group| == 0 then []
    else GroupLines(group[..|group| - 1]) + DocLines(group[|group| - 1])
  }

  function SectionLines(docs: seq<DocEntry>, ts: seq<string>): seq<string> {
    if |ts| == 0 then []
    else
      var t := ts[|ts| - 1];
      SectionLines(docs, ts[..|ts| - 1]) + [Header(t, |Group(docs, t)|)] + GroupLines(Group(docs, t))
  }

  function SummaryLines(docs: seq<DocEntry>): seq<string> {
    SectionLines(docs, Types(docs))
  }

  /** All groups, concatenated in the order of `ts`. */
  function AllGroups(docs: seq<DocEntry>, ts: seq<string>): seq<DocEntry> {
    if |ts| == 0 then []
    else AllGroups(docs, ts[..|ts| - 1]) + Group(docs, ts[|ts| - 1])
  }

  method PrepareDocumentSummary(documents: seq<DocEntry>) returns (summary: string)
    ensures summary == Join(SummaryLines(documents), "\n")
  {
    var order, docTypes := GroupByType(documents);
    // Summarize by type
    var lines: seq<string> := [];
    var j := 0;
    while j < |order|
      invariant 0 <= j <= |order|
      invariant lines == SectionLines(documents, order[..j])
    {
      var docType := order[j];
      var docs := docTypes[docType];
      assert order[..j + 1][..j] == order[..j];
      lines := lines + [Header(docType, |docs|)];
      lines := AppendDocumentLines(lines, docs);
      j := j + 1;
    }
    assert order[..j] == order;
    summary := Join(lines, "\n");
  }

  /** The first loop: fill the dict of lists, keys in insertion order. */
  method GroupByType(documents: seq<DocEntry>) returns (order: seq<string>, docTypes: map<string, seq<DocEntry>>)
    ensures order == Types(documents)
    ensures forall t :: t in docTypes <==> t in order
    ensures forall t :: t in docTypes ==> docTypes[t] == Group(documents, t)
  {
    order, docTypes := [], map[];
    var i := 0;
    while i < |documents|
      invariant 0 <= i <= |documents|
      invariant order == Types(documents[..i])
      invariant forall t :: t in docTypes <==> t in order
      invariant forall t :: t in docTypes ==> docTypes[t] == Group(documents[..i], t)
    {
      var doc := documents[i];
      var docType := doc.docType.GetOr("unknown");
      assert documents[..i + 1][..i] == documents[..i];
      if docType !in docTypes {
        GroupOfAbsentType(documents[..i], docType);
        docTypes := docTypes[docType := []];
        order := order + [docType];
      }
      docTypes := docTypes[docType := docTypes[docType] + [doc]];
      i := i + 1;
    }
    assert documents[..i] == documents;
  }

  /** The inner loop: the lines of each document of one group. */
  method AppendDocumentLines(prefix: seq<string>, docs: seq<DocEntry>) returns (lines: seq<string>)
    ensures lines == prefix + GroupLines(docs)
  {
    lines := prefix;
    var k := 0;
    while k < |docs|
      invariant 0 <= k <= |docs|
      invariant lines == prefix + GroupLines(docs[..k])
    {
      var doc := docs[k];
      assert docs[..k + 1][..k] == docs[..k];
      lines := lines + ["  - " + doc.filename + " (ID: " + doc.id + ", Status: " + doc.status.GetOr("uploaded") + ")"];
      if |doc.extractedData| > 0 {
        lines := lines + ["    Data available: " + Join(Keys(doc.extractedData), ", ")];
      }
      k := k + 1;
    }
    assert docs[..k] == docs;
  }

  /** A type appears among the headers exactly when some document has it. */
  lemma {:induction false} TypesAreThoseOfDocuments(docs: seq<DocEntry>, t: string)
    ensures t in Types(docs) <==> exists i :: 0 <= i < |docs| && TypeOf(docs[i]) == t
  {
    if |docs| > 0 {
      var init := docs[..|docs| - 1];
      TypesAreThoseOfDocuments(init, t);
      assert forall i :: 0 <= i < |init| ==> init[i] == docs[i];
    }
  }

  lemma GroupOfAbsentType(docs: seq<DocEntry>, t: string)
    requires t !in Types(docs)
    ensures Group(docs, t) == []
  {
    TypesAreThoseOfDocuments(docs, t);
    GroupContents(docs, t);
  }

  /** No type is listed twice. */
  lemma {:induction false} TypesDistinct(docs: seq<DocEntry>)
    ensures forall a, b :: 0 <= a < b < |Types(docs)| ==> Types(docs)[a] != Types(docs)[b]
  {
    if |docs| > 0 {
      TypesDistinct(docs[..|docs| - 1]);
    }
  }

  /** Types are listed in order of first appearance: every document of a
      later-listed type is preceded by a document of each earlier type. */
  lemma {:induction false} TypesInFirstAppearanceOrder(docs: seq<DocEntry>)
    ensures forall a, b, q :: 0 <= a < b < |Types(docs)| && 0 <= q < |docs| && TypeOf(docs[q]) == Types(docs)[b] ==>
              exists p :: 0 <= p < q && TypeOf(docs[p]) == Types(docs)[a]
  {
    if |docs| > 0 {
      var n := |docs| - 1;
      var init := docs[..n];
      var T := Types(docs);
      var T0 := Types(init);
      TypesInFirstAppearanceOrder(init);
      assert forall i :: 0 <= i < n ==> init[i] == docs[i];
      forall a, b, q | 0 <= a < b < |T| && 0 <= q < |docs| && TypeOf(docs[q]) == T[b]
        ensures exists p :: 0 <= p < q && TypeOf(docs[p]) == T[a]
      {
        TypesAreThoseOfDocuments(init, T[a]);
        TypesAreThoseOfDocuments(init, T[b]);
        if q < n {
          if b < |T0| {
            var p :| 0 <= p < q && TypeOf(init[p]) == T0[a];
          } else {
            // T[b] is the last document's type, new at position n
            assert false;
          }
        } else {
          var p :| 0 <= p < n && TypeOf(init[p]) == T[a];
          assert TypeOf(docs[p]) == T[a];
        }
      }
    }
  }

  /** A group holds exactly the documents of its type, each as often as it
      occurs in the input. */
  lemma {:induction false} GroupContents(docs: seq<DocEntry>, t: string)
    ensures forall d :: multiset(Group(docs, t))[d] == if TypeOf(d) == t then multiset(docs)[d] else 0
  {
    if |docs| > 0 {
      var n := |docs| - 1;
      GroupContents(docs[..n], t);
      assert docs == docs[..n] + [docs[n]];
    }
  }

  /** Concatenating the groups of distinct types keeps each document whose
      type is among them, with its multiplicity. */
  lemma {:induction false} AllGroupsContents(docs: seq<DocEntry>, ts: seq<string>)
    requires forall a, b :: 0 <= a < b < |ts| ==> ts[a] != ts[b]
    ensures forall d :: multiset(AllGroups(docs, ts))[d] == if TypeOf(d) in ts then multiset(docs)[d] else 0
  {
    if |ts| > 0 {
      var n := |ts| - 1;
      AllGroupsContents(docs, ts[..n]);
      GroupContents(docs, ts[n]);
      assert ts == ts[..n] + [ts[n]];
      assert ts[n] !in ts[..n];
    }
  }

  /** Every document appears exactly once, under its own type. */
  lemma EveryDocumentOnce(docs: seq<DocEntry>)
    ensures multiset(AllGroups(docs, Types(docs))) == multiset(docs)
  {
    TypesDistinct(docs);
    AllGroupsContents(docs, Types(docs));
    forall d | d in multiset(docs)
      ensures TypeOf(d) in Types(docs)
    {
      var i :| 0 <= i < |docs| && docs[i] == d;
      TypesAreThoseOfDocuments(docs, TypeOf(d));
    }
  }
}
