/**
 * Per-node settings of the learning network and their on-demand validation.
 * A record can be built in any state; only an explicit call to Validate
 * checks it.
 */
module NodeConfigs {
  import opened Wrappers
  import opened Vocabulary

  /**
   * One node's operating parameters. The optional fields carry the schema's
   * defaults, so `NodeConfig(id, objectives, sources)` builds a record with
   * every tuning field at its default.
   */
  datatype NodeConfig = NodeConfig(
    nodeId: string,
    learningObjectives: seq<LearningObjective>,
    dataSources: seq<string>,
    privacyBudget: real := 1.0,
    minimumPeers: int := 3,
    maxLocalEpochs: int := 10,
    batchSize: int := 32,
    knowledgeSharingProtocol: KnowledgeSharingProtocol := FederatedAveraging)

  /** The four conditions a node configuration is checked against. */
  datatype ConfigError =
    | EmptyId            // the node identifier is empty
    | NoObjectives       // no learning objective is given
    | BadPrivacyBudget   // the privacy budget lies outside (0, 10]
    | BadPeerCount       // fewer than one peer is required

  /** Position of each check in the order validation performs them. */
  function CheckRank(e: ConfigError): nat {
    match e
    case EmptyId => 0
    case NoObjectives => 1
    case BadPrivacyBudget => 2
    case BadPeerCount => 3
  }

  /** Whether `c` breaks the condition named by `e`, judged on its own. */
  predicate Violates(c: NodeConfig, e: ConfigError) {
    match e
    case EmptyId => |c.nodeId| == 0
    case NoObjectives => |c.learningObjectives| == 0
    case BadPrivacyBudget => !(0.0 < c.privacyBudget <= 10.0)
    case BadPeerCount => c.minimumPeers < 1
  }

  /**
   * Checks `c` and reports the first condition it breaks, in the order
   * identifier, objectives, privacy budget, peer count. It passes exactly
   * when no condition is broken; when it fails, the reported condition is
   * broken and every other broken condition comes later in that order.
   */
  function Validate(c: NodeConfig): (r: Outcome<ConfigError>)
    ensures r.Pass? <==> forall e :: !Violates(c, e)
    ensures r.Fail? ==> Violates(c, r.error)
    ensures r.Fail? ==> forall e :: Violates(c, e) ==> CheckRank(r.error) <= CheckRank(e)
  {
    if c.nodeId == "" then
      assert Violates(c, EmptyId);
      Fail(EmptyId)
    else if c.learningObjectives == [] then
      assert Violates(c, NoObjectives);
      Fail(NoObjectives)
    else if c.privacyBudget <= 0.0 || c.privacyBudget > 10.0 then
      assert Violates(c, BadPrivacyBudget);
      Fail(BadPrivacyBudget)
    else if c.minimumPeers < 1 then
      assert Violates(c, BadPeerCount);
      Fail(BadPeerCount)
    else
      Pass
  }

  /** Validation passes if and only if all four conditions hold together. */
  lemma ValidateIffAllHold(c: NodeConfig)
    ensures Validate(c) == Pass <==>
      && |c.nodeId| > 0
      && |c.learningObjectives| > 0
      && 0.0 < c.privacyBudget <= 10.0
      && c.minimumPeers >= 1
  {
    if Validate(c) == Pass {
      assert !Violates(c, EmptyId) && !Violates(c, NoObjectives);
      assert !Violates(c, BadPrivacyBudget) && !Violates(c, BadPeerCount);
    }
  }

  /**
   * Validation fails with `e` exactly when `e` is violated and no condition
   * checked before it is.
   */
  lemma ValidateFailsExactlyOnViolation(c: NodeConfig, e: ConfigError)
    ensures Validate(c) == Fail(e) <==>
      Violates(c, e) && forall d :: CheckRank(d) < CheckRank(e) ==> !Violates(c, d)
  {
    var r := Validate(c);
    if Violates(c, e) && forall d :: CheckRank(d) < CheckRank(e) ==> !Violates(c, d) {
      assert r.Fail?;
      assert CheckRank(r.error) <= CheckRank(e);
    }
  }

  /** An empty identifier is reported whatever the other fields hold. */
  lemma EmptyIdReportedFirst(c: NodeConfig)
    requires c.nodeId == ""
    ensures Validate(c) == Fail(EmptyId)
  {
  }

  /** Missing objectives are reported ahead of any budget or peer-count error. */
  lemma NoObjectivesReportedBeforeNumbers(c: NodeConfig)
    requires c.nodeId != "" && c.learningObjectives == []
    ensures Validate(c) == Fail(NoObjectives)
  {
  }

  /** A budget error is reported ahead of a peer-count error. */
  lemma BudgetReportedBeforePeers(c: NodeConfig)
    requires c.nodeId != "" && c.learningObjectives != []
    requires !(0.0 < c.privacyBudget <= 10.0)
    ensures Validate(c) == Fail(BadPrivacyBudget)
  {
  }

  /**
   * The privacy budget bound is exclusive at 0 and inclusive at 10: with the
   * other fields valid, 0 and anything above 10 fail and 10 passes.
   */
  lemma PrivacyBudgetBounds(c: NodeConfig, above: real, nonpos: real)
    requires c.nodeId != "" && c.learningObjectives != [] && c.minimumPeers >= 1
    requires above > 10.0 && nonpos <= 0.0
    ensures Validate(c.(privacyBudget := 0.0)) == Fail(BadPrivacyBudget)
    ensures Validate(c.(privacyBudget := 10.0)) == Pass
    ensures Validate(c.(privacyBudget := above)) == Fail(BadPrivacyBudget)
    ensures Validate(c.(privacyBudget := nonpos)) == Fail(BadPrivacyBudget)
  {
  }

  /** With the other fields valid, a peer count of 1 passes and anything below fails. */
  lemma MinimumPeersBounds(c: NodeConfig, below: int)
    requires c.nodeId != "" && c.learningObjectives != [] && 0.0 < c.privacyBudget <= 10.0
    requires below < 1
    ensures Validate(c.(minimumPeers := 1)) == Pass
    ensures Validate(c.(minimumPeers := below)) == Fail(BadPeerCount)
  {
  }

  /**
   * Validation never looks at the data sources, the epoch count, the batch
   * size or the sharing protocol: changing only those leaves the outcome as it was.
   */
  lemma ValidateIgnoresTuningFields(c: NodeConfig, sources: seq<string>, epochs: int,
                                    batch: int, protocol: KnowledgeSharingProtocol)
    ensures Validate(c.(dataSources := sources, maxLocalEpochs := epochs,
                        batchSize := batch, knowledgeSharingProtocol := protocol)) == Validate(c)
  {
  }

  /** A record built from the required fields alone carries the schema defaults. */
  lemma NodeConfigDefaults(id: string, objectives: seq<LearningObjective>, sources: seq<string>)
    ensures var c := NodeConfig(id, objectives, sources);
      && c.privacyBudget == 1.0
      && c.minimumPeers == 3
      && c.maxLocalEpochs == 10
      && c.batchSize == 32
      && c.knowledgeSharingProtocol == FederatedAveraging
  {
  }

  /** The defaults themselves satisfy validation once an identifier and an objective are given. */
  lemma DefaultNodeConfigValidates(id: string, objectives: seq<LearningObjective>, sources: seq<string>)
    requires id != "" && objectives != []
    ensures Validate(NodeConfig(id, objectives, sources)) == Pass
  {
  }

  /** A concrete configuration with non-default budget and peer count validates. */
  lemma ExampleNodeValidates()
    ensures var c := NodeConfig("node-7", [VolatilityForecasting, RiskAssessment], ["exchangeA"],
                                privacyBudget := 2.5, minimumPeers := 5);
      Validate(c) == Pass && c.batchSize == 32
  {
  }
}
