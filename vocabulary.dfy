/**
 * The two closed vocabularies of the configuration schema. Each member is
 * stored and exchanged as its string tag; decoding a string yields the member
 * declared with that tag, and any other string is rejected.
 */
module Vocabulary {
  import opened Wrappers
  import TagLookup

  /** What a node tries to learn. */
  datatype LearningObjective =
    | PricePrediction
    | VolatilityForecasting
    | PatternRecognition
    | RiskAssessment
    | ArbitrageDetection

  /** How nodes exchange what they have learned. */
  datatype KnowledgeSharingProtocol =
    | FederatedAveraging
    | KnowledgeDistillation
    | DifferentialPrivacy
    | BlockchainAnchored

  /* ---------------- LearningObjective ---------------- */

  /** The members in declaration order. */
  function AllObjectives(): seq<LearningObjective> {
    [PricePrediction, VolatilityForecasting, PatternRecognition, RiskAssessment, ArbitrageDetection]
  }

  /** Every objective is listed. */
  lemma AllObjectivesComplete(o: LearningObjective)
    ensures o in AllObjectives()
  {
    var all := AllObjectives();
    match o
    case PricePrediction => assert all[0] == o;
    case VolatilityForecasting => assert all[1] == o;
    case PatternRecognition => assert all[2] == o;
    case RiskAssessment => assert all[3] == o;
    case ArbitrageDetection => assert all[4] == o;
  }

  /** The string value a member is declared with. */
  function ObjectiveTag(o: LearningObjective): string {
    match o
    case PricePrediction => "price_prediction"
    case VolatilityForecasting => "volatility_forecasting"
    case PatternRecognition => "pattern_recognition"
    case RiskAssessment => "risk_assessment"
    case ArbitrageDetection => "arbitrage_detection"
  }

  /** The member declared with tag `s`, or None when `s` is not a declared tag. */
  function ObjectiveFromTag(s: string): (r: Option<LearningObjective>)
    ensures r.Some? ==> ObjectiveTag(r.value) == s
    ensures r.None? <==> forall o: LearningObjective :: ObjectiveTag(o) != s
  {
    assert forall o: LearningObjective :: o in AllObjectives() by {
      forall o: LearningObjective { AllObjectivesComplete(o); }
    }
    TagLookup.FindByTag(AllObjectives(), ObjectiveTag, s)
  }

  /** No two objectives share a tag. */
  lemma ObjectiveTagInjective(a: LearningObjective, b: LearningObjective)
    ensures ObjectiveTag(a) == ObjectiveTag(b) <==> a == b
  {
  }

  /** Decoding an objective's tag gives back that objective. */
  lemma ObjectiveRoundTrip(o: LearningObjective)
    ensures ObjectiveFromTag(ObjectiveTag(o)) == Some(o)
  {
    var r := ObjectiveFromTag(ObjectiveTag(o));
    ObjectiveTagInjective(r.value, o);
  }

  /** A string decodes exactly when it is one of the five declared tags. */
  lemma ObjectiveDecodesOnlyDeclaredTags(s: string)
    ensures ObjectiveFromTag(s).Some? <==>
      s in {"price_prediction", "volatility_forecasting", "pattern_recognition",
            "risk_assessment", "arbitrage_detection"}
  {
  }

  /* ---------------- KnowledgeSharingProtocol ---------------- */

  /** The members in declaration order. */
  function AllProtocols(): seq<KnowledgeSharingProtocol> {
    [FederatedAveraging, KnowledgeDistillation, DifferentialPrivacy, BlockchainAnchored]
  }

  /** Every protocol is listed. */
  lemma AllProtocolsComplete(p: KnowledgeSharingProtocol)
    ensures p in AllProtocols()
  {
    var all := AllProtocols();
    match p
    case FederatedAveraging => assert all[0] == p;
    case KnowledgeDistillation => assert all[1] == p;
    case DifferentialPrivacy => assert all[2] == p;
    case BlockchainAnchored => assert all[3] == p;
  }

  /** The string value a member is declared with. */
  function ProtocolTag(p: KnowledgeSharingProtocol): string {
    match p
    case FederatedAveraging => "federated_averaging"
    case KnowledgeDistillation => "knowledge_distillation"
    case DifferentialPrivacy => "differential_privacy"
    case BlockchainAnchored => "blockchain_anchored"
  }

  /** The member declared with tag `s`, or None when `s` is not a declared tag. */
  function ProtocolFromTag(s: string): (r: Option<KnowledgeSharingProtocol>)
    ensures r.Some? ==> ProtocolTag(r.value) == s
    ensures r.None? <==> forall p: KnowledgeSharingProtocol :: ProtocolTag(p) != s
  {
    assert forall p: KnowledgeSharingProtocol :: p in AllProtocols() by {
      forall p: KnowledgeSharingProtocol { AllProtocolsComplete(p); }
    }
    TagLookup.FindByTag(AllProtocols(), ProtocolTag, s)
  }

  /** No two protocols share a tag. */
  lemma ProtocolTagInjective(a: KnowledgeSharingProtocol, b: KnowledgeSharingProtocol)
    ensures ProtocolTag(a) == ProtocolTag(b) <==> a == b
  {
  }

  /** Decoding a protocol's tag gives back that protocol. */
  lemma ProtocolRoundTrip(p: KnowledgeSharingProtocol)
    ensures ProtocolFromTag(ProtocolTag(p)) == Some(p)
  {
    var r := ProtocolFromTag(ProtocolTag(p));
    ProtocolTagInjective(r.value, p);
  }

  /** A string decodes exactly when it is one of the four declared tags. */
  lemma ProtocolDecodesOnlyDeclaredTags(s: string)
    ensures ProtocolFromTag(s).Some? <==>
      s in {"federated_averaging", "knowledge_distillation", "differential_privacy",
            "blockchain_anchored"}
  {
  }

  /** Examples of undeclared strings, the empty one among them, that both vocabularies reject. */
  lemma UndeclaredTagsRejected()
    ensures ObjectiveFromTag("not_a_real_objective").None?
    ensures ProtocolFromTag("not_a_real_protocol").None?
    ensures ObjectiveFromTag("").None? && ProtocolFromTag("").None?
  {
  }

  /** No protocol tag decodes as an objective. */
  lemma ProtocolTagsAreNotObjectives(p: KnowledgeSharingProtocol)
    ensures ObjectiveFromTag(ProtocolTag(p)).None?
  {
    ObjectiveDecodesOnlyDeclaredTags(ProtocolTag(p));
  }

  /** No objective tag decodes as a protocol. */
  lemma ObjectiveTagsAreNotProtocols(o: LearningObjective)
    ensures ProtocolFromTag(ObjectiveTag(o)).None?
  {
    ProtocolDecodesOnlyDeclaredTags(ObjectiveTag(o));
  }
}
