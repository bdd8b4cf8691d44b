/** The structured output the forensic agent must return, and the inputs it
    runs on. Every finding-bearing record has a field of type
    `ConfidenceLevel`, so no finding can omit its confidence level. */
module ForensicModels {
  import opened Common

  /** The fixed four-value confidence scale. */
  datatype ConfidenceLevel = High | Medium | Low | Uncertain

  /** The enum's string value. */
  function LevelName(c: ConfidenceLevel): string {
    match c
    case High => "High"
    case Medium => "Medium"
    case Low => "Low"
    case Uncertain => "Uncertain"
  }

  datatype DocumentVerification = DocumentVerification(
    documentType: string,
    completenessStatus: string,
    authenticationStatus: string,
    confidenceLevel: ConfidenceLevel,
    gapsIdentified: seq<string>,
    discoveryPriorities: seq<string>)

  datatype AssetAnalysis = AssetAnalysis(
    assetType: string,
    description: string,
    estimatedValue: real,
    valueConfidence: ConfidenceLevel,
    ownershipPercentage: real,
    characterization: string,
    characterizationConfidence: ConfidenceLevel,
    documentationReference: seq<string>,
    tracingMethod: Option<string>,
    tracingConfidence: Option<ConfidenceLevel>,
    mooreMarsdenCalculation: Option<Dict>,
    notes: string)

  datatype ConcealmentScheme = ConcealmentScheme(
    schemeType: string,
    description: string,
    evidenceStrength: ConfidenceLevel,
    estimatedAmount: Option<real>,
    amountConfidence: ConfidenceLevel,
    detectionMethod: string,
    supportingEvidence: seq<string>,
    recoveryProbability: string,
    recommendedActions: seq<string>)

  datatype DigitalAssetFindings = DigitalAssetFindings(
    assetType: string,
    blockchainAddresses: seq<string>,
    traceableAmount: real,
    traceableConfidence: ConfidenceLevel,
    mixedAmount: real,
    mixedConfidence: ConfidenceLevel,
    privacyCoinAmount: real,
    privacyConfidence: ConfidenceLevel,
    totalEstimated: real,
    totalConfidenceRange: string,
    preservationUrgency: string)

  datatype SettlementScenario = SettlementScenario(
    scenarioName: string,
    assetDivision: seq<(string, real)>,
    probability: real,
    confidenceInterval: string,
    expectedValue: real,
    strategicAdvantages: seq<string>,
    risks: seq<string>)

  datatype ConfidenceDashboard = ConfidenceDashboard(
    overallConfidence: string,
    documentCompleteness: string,
    legalFrameworkCertainty: string,
    assetIdentificationConfidence: string,
    concealmentDetectionConfidence: string,
    valuationReliability: string,
    strategicAssessmentConfidence: string)

  /** The single record one analysis run produces, phase by phase. */
  datatype ForensicOutput = ForensicOutput(
    // Phase 1: constitutional verification
    documentVerification: seq<DocumentVerification>,
    jurisdictionalFramework: Dict,
    knowledgeBoundaries: seq<(string, seq<string>)>,
    // Phase 2: sequential analysis
    assets: seq<AssetAnalysis>,
    liabilities: seq<AssetAnalysis>,
    incomeAnalysis: seq<Dict>,
    concealmentSchemes: seq<ConcealmentScheme>,
    digitalAssets: Option<DigitalAssetFindings>,
    behavioralAssessment: Dict,
    // Phase 3: self-correction
    methodologyChallenges: seq<string>,
    evidenceRobustness: string,
    objectivityAssessment: string,
    alternativeScenarios: seq<Dict>,
    // Phase 4: strategic output
    executiveSummary: string,
    confidenceDashboard: ConfidenceDashboard,
    settlementScenarios: seq<SettlementScenario>,
    immediateActions: seq<Dict>,
    discoveryPriorities: seq<Dict>,
    strategicLeveragePoints: seq<Dict>,
    // Financial summary
    totalAssetsValue: real,
    totalAssetsConfidence: ConfidenceLevel,
    totalLiabilitiesAmount: real,
    netWorth: real,
    netWorthConfidenceRange: string)

  /** One entry of the document snapshot handed to the analysis: the dict
      `{id, type, filename, status, extracted_data}`. `docType` and `status`
      are `None` when the dict has no such key. */
  datatype DocEntry = DocEntry(
    id: string,
    docType: Option<string>,
    filename: string,
    status: Option<string>,
    extractedData: Dict)

  /** The user context passed along with a job. */
  datatype UserContext = UserContext(userId: nat, email: string, fullName: string)

  /** What the agent receives besides its prompt. Dates are day numbers. */
  datatype ForensicDependencies = ForensicDependencies(
    caseId: nat,
    documents: seq<DocEntry>,
    userContext: UserContext,
    jurisdiction: string,
    separationDate: Option<int>,
    marriageDate: Option<int>)
}
