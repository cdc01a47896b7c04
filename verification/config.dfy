/** The configuration the modelled packages read (pkg/config). */
module Config {

  datatype Option<+T> = None | Some(value: T)

  datatype Result<+T> = Ok(value: T) | Err(message: string)

  datatype SafetyConfig = SafetyConfig(
    enabled: bool, failClosed: bool, requireApproval: bool, allowDestructiveActions: bool,
    allowedNamespaces: seq<string>, blockedNamespaces: seq<string>,
    allowedNamePatterns: seq<string>, blockedNamePatterns: seq<string>,
    maxTargetsPerRun: int, maxDestructiveActionsPerRun: int)

  datatype KubernetesConfig = KubernetesConfig(
    enabled: bool, namespaces: seq<string>, actions: seq<string>, maxTargets: int, excludedPods: seq<string>)

  datatype NetworkConfig = NetworkConfig(
    enabled: bool, actions: seq<string>, latencyMs: int, jitterMs: int, packetLossPercent: real,
    corruptPercent: real, bandwidthLimitKbps: int, duration: int)

  datatype StressConfig = StressConfig(enabled: bool, actions: seq<string>)

  /** The traffic packages, of which only the number of configured targets matters here. */
  datatype TrafficConfig = TrafficConfig(enabled: bool, targets: nat)

  datatype Step = Step(name: string, condition: string, retries: int)

  datatype Scenario = Scenario(
    name: string, enabled: bool, order: int, parallel: bool, prerequisites: seq<string>, retries: int,
    steps: seq<Step>)

  datatype Config = Config(
    dryRun: bool, kubernetes: KubernetesConfig, http: TrafficConfig, grpc: TrafficConfig, mq: TrafficConfig,
    network: NetworkConfig, stress: StressConfig, safety: SafetyConfig, scenarios: seq<Scenario>)

  /** A registered experiment; `destructive` is what it reports, if it reports at all. */
  datatype Experiment = Experiment(name: string, destructive: Option<nat>)
}
