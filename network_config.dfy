/**
 * Network-wide settings. The record has defaults and no behaviour: nothing
 * validates it.
 */
module NetworkConfigs {

  /** Ten mebibytes, the default ceiling on one message. */
  const TenMiB: int := 10 * 1024 * 1024

  /**
   * Network-wide tunables. The backing-store settings are an opaque mapping
   * whose value type `V` belongs to an external service.
   */
  datatype NetworkConfig<V> = NetworkConfig(
    firebaseConfig: map<string, V>,
    p2pBootstrapNodes: seq<string> := [],
    modelUpdateInterval: int := 300,
    knowledgeRetentionDays: int := 30,
    maxMessageSize: int := 10485760)

  /** A record built from the backing-store settings alone carries the defaults. */
  lemma NetworkConfigDefaults<V>(firebase: map<string, V>)
    ensures var n := NetworkConfig(firebase);
      && n.firebaseConfig == firebase
      && n.p2pBootstrapNodes == []
      && n.modelUpdateInterval == 300
      && n.knowledgeRetentionDays == 30
      && n.maxMessageSize == TenMiB
  {
  }
}
