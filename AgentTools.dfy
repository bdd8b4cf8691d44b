/** The five deterministic tools the forensic agent may call. Each is total:
    a missing document, an unknown source or an absent keyword yields a
    structured "cannot determine" value rather than a guess. */
module AgentTools {
  import opened Common
  import opened ForensicModels

  // ---------------------------------------------------------------------
  // verify_document_authenticity

  /** `next((d for d in docs if d['id'] == id), None)`: the first entry with
      the identifier. */
  function FindDocument(docs: seq<DocEntry>, id: string): (r: Option<DocEntry>)
    ensures r.None? <==> forall i :: 0 <= i < |docs| ==> docs[i].id != id
    ensures r.Some? ==> exists i :: 0 <= i < |docs| && docs[i] == r.value && docs[i].id == id
                          && forall j :: 0 <= j < i ==> docs[j].id != id
  {
    if |docs| == 0 then None
    else if docs[0].id == id then Some(docs[0])
    else
      var r := FindDocument(docs[1..], id);
      assert r.Some? ==> exists i :: 0 <= i < |docs[1..]| && docs[1..][i] == r.value && docs[1..][i].id == id
                          && forall j :: 0 <= j < i ==> docs[1..][j].id != id;
      assert r.Some? ==> exists i :: 1 <= i < |docs| && docs[i] == r.value && docs[i].id == id
                          && forall j :: 1 <= j < i ==> docs[j].id != id;
      r
  }

  const NotFoundVerification := DocumentVerification(
    "Unknown", "Not Found", "Cannot Verify", Uncertain,
    ["Document not found"], ["Locate document"])

  function VerifiedDocument(documentType: string): DocumentVerification {
    DocumentVerification(documentType, "Complete", "Verified", High, [], [])
  }

  /** A found document yields its own type with High confidence and no gaps;
      a missing one yields the Uncertain "Cannot Verify" record. Reading
      `doc['type']` of an entry without that key raises KeyError. */
  function VerifyDocumentAuthenticity(docs: seq<DocEntry>, documentId: string): (r: Result<DocumentVerification>)
    ensures (forall i :: 0 <= i < |docs| ==> docs[i].id != documentId) ==>
              r == Ok(DocumentVerification("Unknown", "Not Found", "Cannot Verify", Uncertain,
                                           ["Document not found"], ["Locate document"]))
    ensures (exists i :: 0 <= i < |docs| && docs[i].id == documentId) ==>
              exists i :: 0 <= i < |docs| && docs[i].id == documentId
                && (forall j :: 0 <= j < i ==> docs[j].id != documentId)
                && r == (if docs[i].docType.None? then Err(KeyError("type"))
                         else Ok(DocumentVerification(docs[i].docType.value, "Complete", "Verified",
                                                      High, [], [])))
  {
    match FindDocument(docs, documentId)
    case None => Ok(NotFoundVerification)
    case Some(doc) =>
      if doc.docType.None? then Err(KeyError("type"))
      else Ok(VerifiedDocument(doc.docType.value))
  }

  // ---------------------------------------------------------------------
  // analyze_bank_statements_v3

  datatype BankStatementAnalysis =
    | Observations(
        accountNumber: string,
        averageBalance: real,
        balanceConfidence: string,
        suspiciousTransactions: seq<Json>,
        largeWithdrawals: seq<Json>,
        recurringPayments: seq<Json>,
        gapsInStatements: seq<Json>,
        authenticationNotes: string)
    | StatementNotFound(error: string, confidence: string)

  const FixedObservations := Observations(
    "****1234", 50000.00, "High", [], [], [], [],
    "Verified via bank letterhead and transaction continuity")

  const StatementMissing := StatementNotFound(
    "Document not found or not a bank statement", "Uncertain")

  /** The scan the tool's loop performs: entries with another identifier are
      skipped without reading their type; the first entry with the identifier
      and type 'bank_statement' gives the fixed observations. */
  function BankScan(docs: seq<DocEntry>, documentId: string): Result<BankStatementAnalysis> {
    if |docs| == 0 then Ok(StatementMissing)
    else if docs[0].id == documentId then
      if docs[0].docType.None? then Err(KeyError("type"))
      else if docs[0].docType.value == "bank_statement" then Ok(FixedObservations)
      else BankScan(docs[1..], documentId)
    else BankScan(docs[1..], documentId)
  }

  method AnalyzeBankStatements(docs: seq<DocEntry>, documentId: string) returns (r: Result<BankStatementAnalysis>)
    ensures r == BankScan(docs, documentId)
  {
    var i := 0;
    while i < |docs|
      invariant 0 <= i <= |docs|
      invariant BankScan(docs, documentId) == BankScan(docs[i..], documentId)
    {
      var doc := docs[i];
      assert docs[i..][1..] == docs[i + 1..];
      if doc.id == documentId {
        if doc.docType.None? {
          return Err(KeyError("type"));
        }
        if doc.docType.value == "bank_statement" {
          return Ok(FixedObservations);
        }
      }
      i := i + 1;
    }
    r := Ok(StatementMissing);
  }

  /** For entries that all carry a type (as snapshots built by the API do),
      the observations come back exactly when some entry has both the
      identifier and type 'bank_statement'; otherwise the Uncertain error
      record. */
  lemma {:induction false} BankScanFindsStatement(docs: seq<DocEntry>, documentId: string)
    requires forall i :: 0 <= i < |docs| ==> docs[i].docType.Some?
    ensures BankScan(docs, documentId) == Ok(FixedObservations) <==>
              exists i :: 0 <= i < |docs| && docs[i].id == documentId
                          && docs[i].docType == Some("bank_statement")
    ensures BankScan(docs, documentId) != Ok(FixedObservations) ==>
              BankScan(docs, documentId) == Ok(StatementNotFound("Document not found or not a bank statement", "Uncertain"))
  {
    if |docs| > 0 {
      BankScanFindsStatement(docs[1..], documentId);
      if !(docs[0].id == documentId && docs[0].docType == Some("bank_statement")) {
        assert (exists i :: 0 <= i < |docs| && docs[i].id == documentId
                            && docs[i].docType == Some("bank_statement")) <==>
               (exists i :: 0 <= i < |docs[1..]| && docs[1..][i].id == documentId
                            && docs[1..][i].docType == Some("bank_statement")) by {
          forall i | 1 <= i < |docs| ensures docs[i] == docs[1..][i - 1] { }
        }
      }
    }
  }

  /** The scan raises exactly when an entry with the identifier but no type
      key comes before every matching bank statement. */
  lemma {:induction false} BankScanRaises(docs: seq<DocEntry>, documentId: string)
    ensures BankScan(docs, documentId).Err? <==>
              exists i :: 0 <= i < |docs| && docs[i].id == documentId && docs[i].docType.None?
                && forall j :: 0 <= j < i && docs[j].id == documentId ==> docs[j].docType != Some("bank_statement")
    ensures BankScan(docs, documentId).Err? ==> BankScan(docs, documentId) == Err(KeyError("type"))
  {
    if |docs| > 0 {
      BankScanRaises(docs[1..], documentId);
      var P := (ds: seq<DocEntry>, i: int) =>
        0 <= i < |ds| && ds[i].id == documentId && ds[i].docType.None?
        && forall j :: 0 <= j < i && ds[j].id == documentId ==> ds[j].docType != Some("bank_statement");
      if docs[0].id == documentId && docs[0].docType.None? {
        assert P(docs, 0);
      } else if docs[0].id == documentId && docs[0].docType == Some("bank_statement") {
        forall i | 0 <= i < |docs| ensures !P(docs, i) { }
      } else {
        forall i | 1 <= i < |docs| ensures P(docs, i) <==> P(docs[1..], i - 1) {
          forall j | 1 <= j <= i ensures docs[j] == docs[1..][j - 1] { }
        }
        assert !P(docs, 0);
      }
    }
  }

  // ---------------------------------------------------------------------
  // detect_cryptocurrency_activity

  /** `"coinbase" in record.lower() or "kraken" in record.lower()` */
  predicate MentionsExchange(record: string) {
    Contains(Lower(record), "coinbase") || Contains(Lower(record), "kraken")
  }

  /** `any(...)` over the records. */
  predicate AnyMentionsExchange(records: seq<string>)
    ensures AnyMentionsExchange(records) <==> exists i :: 0 <= i < |records| && MentionsExchange(records[i])
  {
    if |records| == 0 then false
    else
      assert forall i :: 1 <= i < |records| ==> records[i] == records[1..][i - 1];
      MentionsExchange(records[0]) || AnyMentionsExchange(records[1..])
  }

  const CryptoFinding := DigitalAssetFindings(
    "Cryptocurrency",
    ["bc1qxy2kgdygjrsqtzq2n0yrf2493p83kkfjhx0wlh"],
    42000.00, High,
    28000.00, Medium,
    15000.00, Low,
    85000.00,
    "$70,000 - $100,000 (70% confidence)",
    "URGENT - 24-48 hour window")

  /** A finding exactly when some record names Coinbase or Kraken in any
      letter case; no finding (a valid outcome) otherwise. The finding's
      total is the sum of its three tiers, which carry High, Medium and Low
      confidence. */
  function DetectCryptocurrencyActivity(bankRecords: seq<string>): (r: Option<DigitalAssetFindings>)
    ensures r.Some? <==> exists i :: 0 <= i < |bankRecords| && MentionsExchange(bankRecords[i])
    ensures r.Some? ==> r.value.totalEstimated == r.value.traceableAmount + r.value.mixedAmount + r.value.privacyCoinAmount
    ensures r.Some? ==> r.value.traceableConfidence == High && r.value.mixedConfidence == Medium
                          && r.value.privacyConfidence == Low
    ensures r.Some? ==> r.value.totalEstimated == 85000.0
  {
    if AnyMentionsExchange(bankRecords) then Some(CryptoFinding) else None
  }

  /** A record containing "Coinbase" spelt with any letter case is detected. */
  lemma AnySpellingDetected(bankRecords: seq<string>, k: nat, spelling: string)
    requires k < |bankRecords|
    requires Lower(spelling) == "coinbase" || Lower(spelling) == "kraken"
    requires Contains(bankRecords[k], spelling)
    ensures DetectCryptocurrencyActivity(bankRecords).Some?
  {
    ContainsLowered(bankRecords[k], spelling);
    assert MentionsExchange(bankRecords[k]);
  }

  // ---------------------------------------------------------------------
  // calculate_moore_marsden

  /** The `property_data` dict; `None` marks an absent key. */
  datatype PropertyData = PropertyData(
    downPayment: Option<real>,
    downPaymentSource: Option<string>,
    purchasePrice: Option<real>,
    currentValue: Option<real>,
    communityMortgagePayments: Option<real>)

  datatype MooreMarsdenResult =
    | Apportionment(
        separatePropertyValue: real,
        communityPropertyValue: real,
        calculationConfidence: string,
        formulaApplied: string,
        caseCitation: string)
    | InsufficientData(error: string, missingData: seq<string>, confidence: string)

  const MooreCitation := "In re Marriage of Moore (1980) 28 Cal.3d 366"

  /** The apportionment of In re Marriage of Moore (1980) 28 Cal.3d 366:
      each interest is its contribution over the purchase price, and the
      appreciation is shared in proportion. Computed only for a 'separate'
      down payment, and then always High; dividing by a zero purchase price
      raises. Any other source, an absent one included, is refused with the
      Uncertain insufficient-data record. */
  function CalculateMooreMarsden(p: PropertyData): (r: Result<MooreMarsdenResult>)
    ensures p.downPaymentSource != Some("separate") ==>
              r == Ok(InsufficientData("Insufficient data for Moore/Marsden calculation",
                                       ["down payment source verification", "payment records"],
                                       "Uncertain"))
    ensures p.downPaymentSource == Some("separate") && p.purchasePrice.GetOr(0.0) == 0.0 ==>
              r == Err(ZeroDivisionError)
    ensures p.downPaymentSource == Some("separate") && p.purchasePrice.GetOr(0.0) != 0.0 ==>
              var dp, pp := p.downPayment.GetOr(0.0), p.purchasePrice.GetOr(0.0);
              var cv, mp := p.currentValue.GetOr(0.0), p.communityMortgagePayments.GetOr(0.0);
              r.Ok? && r.value.Apportionment?
              && r.value.separatePropertyValue * pp == dp * pp + (cv - pp) * dp
              && r.value.communityPropertyValue * pp == mp * pp + (cv - pp) * mp
              && r.value.calculationConfidence == "High"
              && r.value.caseCitation == "In re Marriage of Moore (1980) 28 Cal.3d 366"
  {
    var downPayment := p.downPayment.GetOr(0.0);
    var downPaymentSource := p.downPaymentSource.GetOr("unknown");
    var purchasePrice := p.purchasePrice.GetOr(0.0);
    var currentValue := p.currentValue.GetOr(0.0);
    var mortgagePayments := p.communityMortgagePayments.GetOr(0.0);
    if downPaymentSource == "separate" then
      if purchasePrice == 0.0 then Err(ZeroDivisionError)
      else
        var separateInterest := downPayment / purchasePrice;
        var communityInterest := mortgagePayments / purchasePrice;
        var appreciation := currentValue - purchasePrice;
        var separateAppreciation := appreciation * separateInterest;
        var communityAppreciation := appreciation * communityInterest;
        Ok(Apportionment(
          downPayment + separateAppreciation,
          mortgagePayments + communityAppreciation,
          if downPaymentSource != "unknown" then "High" else "Medium",
          "Moore/Marsden",
          MooreCitation))
    else
      Ok(InsufficientData(
        "Insufficient data for Moore/Marsden calculation",
        ["down payment source verification", "payment records"],
        "Uncertain"))
  }

  /** The worked example: a 400000 purchase with an 80000 separate down
      payment, now worth 600000, with 40000 of community payments. */
  lemma MooreMarsdenExample()
    ensures CalculateMooreMarsden(PropertyData(Some(80000.0), Some("separate"), Some(400000.0),
                                               Some(600000.0), Some(40000.0)))
            == Ok(Apportionment(120000.0, 60000.0, "High", "Moore/Marsden", MooreCitation))
  {
  }

  // ---------------------------------------------------------------------
  // monte_carlo_settlement_simulation

  /** `sum(asset.estimated_value for asset in assets)` */
  function TotalValue(assets: seq<AssetAnalysis>): real {
    if |assets| == 0 then 0.0 else assets[0].estimatedValue + TotalValue(assets[1..])
  }

  predicate NotesMentionConcealment(a: AssetAnalysis) {
    Contains(Lower(a.notes), "concealment")
  }

  predicate AnyConcealment(assets: seq<AssetAnalysis>)
    ensures AnyConcealment(assets) <==> exists i :: 0 <= i < |assets| && NotesMentionConcealment(assets[i])
  {
    if |assets| == 0 then false
    else
      assert forall i :: 1 <= i < |assets| ==> assets[i] == assets[1..][i - 1];
      NotesMentionConcealment(assets[0]) || AnyConcealment(assets[1..])
  }

  function EqualDivision(total: real): SettlementScenario {
    var equalDiv := total / 2.0;
    SettlementScenario(
      "Equal Division (50/50)",
      [("Party A", equalDiv), ("Party B", equalDiv)],
      0.6, "55%-65%", equalDiv,
      ["Simple", "Predictable", "Court-favored default"],
      ["May not account for separate property", "Ignores misconduct"])
  }

  function FavorableDivision(total: real): SettlementScenario {
    var favorable := total * 0.65;
    SettlementScenario(
      "Favorable Division (65/35 due to misconduct)",
      [("Party A", favorable), ("Party B", total - favorable)],
      0.3, "25%-35%", favorable,
      ["Accounts for misconduct", "Strong negotiation position"],
      ["Requires strong evidence", "Judge discretion varies"])
  }

  /** The equal division always comes first; the misconduct-weighted
      division follows exactly when some asset's notes mention concealment. */
  function MonteCarloSettlementSimulation(assets: seq<AssetAnalysis>): (r: seq<SettlementScenario>)
    ensures 1 <= |r| <= 2
    ensures |r| == 2 <==> exists i :: 0 <= i < |assets| && NotesMentionConcealment(assets[i])
    ensures r[0].expectedValue == TotalValue(assets) / 2.0 && r[0].probability == 0.6
    ensures r[0].assetDivision == [("Party A", TotalValue(assets) / 2.0), ("Party B", TotalValue(assets) / 2.0)]
    ensures |r| == 2 ==> r[1].expectedValue == 0.65 * TotalValue(assets) && r[1].probability == 0.3
                         && |r[1].assetDivision| == 2
                         && r[1].assetDivision[0].1 + r[1].assetDivision[1].1 == TotalValue(assets)
  {
    var totalAssets := TotalValue(assets);
    var scenarios := [EqualDivision(totalAssets)];
    if AnyConcealment(assets) then scenarios + [FavorableDivision(totalAssets)] else scenarios
  }
}
