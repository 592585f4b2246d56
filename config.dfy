/**
 * The workload configuration read by both chart builders (the global `config.Cfg`
 * of the Go program), passed here as an explicit, immutable value. Only the fields
 * the builders read are modelled; the package that loads it is not part of this model.
 */
module Config {

  /** One entry of `Ports`: the port number a container exposes. */
  datatype PortConfig = PortConfig(port: int)

  /** One entry of `Config`: a ConfigMap name and the path it is mounted at. */
  datatype ConfigFile = ConfigFile(name: string, path: string)

  /** One value of the `Resources` map: CPU and memory quantities, kept as opaque strings. */
  datatype Resource = Resource(cpu: string, memory: string)

  /** The Prometheus scrape settings. */
  datatype Metrics = Metrics(scrape: bool, port: int, path: string)

  /**
   * The workload configuration. `image` is the image reference already rendered to its
   * canonical string form (`Image.String()` in the Go program).
   */
  datatype WorkloadConfig = WorkloadConfig(
    service: string,
    app: string,
    image: string,
    workloadType: string,
    replicas: int,
    maxReplicas: int,
    hpa: bool,
    ports: seq<PortConfig>,
    importEnvNames: seq<string>,
    config: seq<ConfigFile>,
    serviceAccount: bool,
    serviceAccountName: string,
    command: seq<string>,
    args: seq<string>,
    resources: map<string, Resource>,
    metrics: Metrics)
}
