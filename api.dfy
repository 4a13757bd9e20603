/**
 * The declarative description of a member cluster, reduced to the fields the
 * builder and the admission webhook read: the administrative `disabled` flag
 * and the three optional connection references.
 */
module Api {
  import opened Results

  datatype SecretRef = SecretRef(namespace: string, name: string)

  /** A kubeconfig, itself possibly kept in a secret. */
  datatype ConfigRef = ConfigRef(secret: Option<SecretRef>, config: seq<bv8>)

  /** A bearer token with an optional CA bundle. */
  datatype TokenRef = TokenRef(caBundle: Option<seq<bv8>>, token: string)

  /** How to reach the member cluster; at least one reference should be set. */
  datatype ConnectConfig = ConnectConfig(
    secret: Option<SecretRef>,
    config: Option<ConfigRef>,
    token: Option<TokenRef>,
    endpoint: string)

  datatype ClusterSpec = ClusterSpec(disabled: bool, connect: ConnectConfig)

  /** A `Cluster` object as stored on the master cluster. */
  datatype Description = Description(name: string, spec: ClusterSpec)
}
