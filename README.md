# cd-template chart compiler, modelled in Dafny

This project models the two chart builders of cd-template, which compile a
workload configuration into Kubernetes resources:

- the workload builder `NewWorkloadChart` (chart/workload.go), which emits one
  Deployment or one StatefulSet;
- the autoscaler builder `NewHpaChart` (chart/hpa.go), which emits one
  autoscaling/v2beta2 HorizontalPodAutoscaler.

The Go code reads the global `config.Cfg`, the chart's label map and the process
environment. Here all three are explicit inputs:

- `Config.WorkloadConfig` holds the configuration;
- `K8s.Labels` holds the labels;
- `Workload.Environ` is a `map<string, string>` snapshot of the environment, where an unset name reads as `""`.

The cdk8s property structs become the datatypes of module `K8s`. A Go
pointer that may stay nil is an `Option`.

Layout:

- `wrappers.dfy`: `Option`.
- `config.dfy`: the configuration record.
- `k8s.dfy`: the output objects.
- `decimal.dfy`: decimal rendering as `strconv.Itoa` does it, with a parser as its round-trip partner.
- `workload.dfy`: the specification functions and `WorkloadOf`, the workload as a function of the inputs. Also the imperative builder, split into one method per step (ports, env, config volumes, service account, resources, annotations) plus `NewWorkloadChart`, which assembles them. The first three steps follow the Go comments `//port`, `//env` and `//config`. Each method is proved to produce exactly its specification function, and lemmas state the properties of `WorkloadOf`.
- `hpa.dfy`: the autoscaler as a single function, and lemmas relating it to the workload.

Go visits the `Resources` map in an unspecified order. `BuildResources` models
this by letting its loop pick any pending key. Its postcondition equates the
result with the order-free `ResourcesOf`, so the result is proved to be the same
for every visiting order. Because `NewWorkloadChart` is proved equal to a function
of its inputs, two builds from the same configuration, labels and environment
give equal resources.

## Model

| member | source | states |
|---|---|---|
| Workload.BuildPorts | chart/workload.go:22-28 | The port list holds one `ContainerPort` per configured port, in configuration order, and is `[]` when none are configured. |
| Workload.WorkloadPorts | chart/workload.go:22-28 | The container's `ports` is always present: it has the same length as `Ports`, entry i carries `Ports[i].Port`, and it is `Some([])` when there are no ports. |
| Workload.BuildEnv | chart/workload.go:29-55 | The loop skips empty names. Each other name gets a literal entry whose value is the environment lookup. Then NODE_NAME and STAGE are appended. The result equals `EnvList`. |
| Workload.EnvList | chart/workload.go:29-55 | The length is (number of non-empty import names) + 2. Entry i of the prefix is the i-th non-empty name, its value is the lookup (`""` if unset) and it has no `valueFrom`. The last two entries are NODE_NAME and then STAGE. |
| Workload.EnvEndsWithFieldRefs | chart/workload.go:41-55 | Whatever the imports, the list ends with NODE_NAME (fieldRef `metadata.name`) followed by STAGE (fieldRef `metadata.namespace`). Neither has a literal value. |
| Workload.EnvSkipsEmptyName | chart/workload.go:32-34 | An empty import name, at any position, leaves the environment list unchanged. |
| Workload.NonEmptyNamesAppend | chart/workload.go:31-40 | Filtering import names distributes over concatenation, so the surviving names keep their input order. |
| Workload.NonEmptyNamesMembers | chart/workload.go:31-34 | A name has an entry exactly when it is configured and non-empty. |
| Workload.NonEmptyNamesAreNonEmpty | chart/workload.go:32-34 | No surviving name is empty. |
| Workload.NonEmptyNamesKeepsAll | chart/workload.go:31-40 | When no import name is empty, every name gets an entry, in input order. |
| Workload.WorkloadEnv | chart/workload.go:29-55 | The container's `env` is present, equals `EnvList` of the imports, and has length (non-empty names) + 2. |
| Workload.BuildConfigVolumes | chart/workload.go:56-75 | The method returns one ConfigMap volume and one mount per `Config` entry, in order. Both lists are empty when `Config` is empty. |
| Workload.WorkloadVolumes | chart/workload.go:56-75 | Both lists are present and each has length `len(Config)`. Volume i has name and ConfigMap name `Config[i].Name`. Mount i has name `Config[i].Name`, path `Config[i].Path` and `ReadOnly` set to true. |
| Workload.ResolveServiceAccount | chart/workload.go:77-83 | The derived name is assigned first and the explicit name second, so the later assignment wins. The result equals the priority rule `ServiceAccountNameOf`. |
| Workload.WorkloadServiceAccount | chart/workload.go:77-83 | The service-account name is `ServiceAccountName` when that is non-empty. Otherwise it is `App-Service` if `ServiceAccount` is set. Otherwise it is absent. |
| Workload.WorkloadCommandArgs | chart/workload.go:84-92 | Command and Args are each absent exactly when their configured sequence is empty, and otherwise equal it unchanged. Neither is ever a present empty list. |
| Workload.BuildResources | chart/workload.go:94-110 | Whatever order the loop visits the keys in, the result equals `ResourcesOf`, which reads only the keys "limits" and "requests". |
| Workload.WorkloadResources | chart/workload.go:94-110 | `Limits` is present iff the key "limits" is configured, and `Requests` iff "requests" is. Each present map has exactly the keys cpu and memory, taken from that entry. |
| Workload.ResourcesIgnoreOtherKeys | chart/workload.go:97-108 | Adding or removing a key other than "limits" and "requests" does not change the resource requirements. |
| Workload.BuildAnnotations | chart/workload.go:111-116 | The annotation map starts empty and gains the three scrape keys only when scraping is on. The result equals `AnnotationsOf`. |
| Workload.WorkloadAnnotations | chart/workload.go:111-116 | The annotations are always present. They are empty unless `Metrics.Scrape`. When it is set they are exactly scrape="true", port=decimal of `Metrics.Port` and path=`Metrics.Path`. |
| Workload.ScrapeExample | chart/workload.go:111-116 | Scraping on port 9090 at /metrics gives exactly those three annotations, with port "9090". |
| Workload.WorkloadOf | chart/workload.go:117-189 | StatefulSet iff `WorkloadType == "statefulset"`, and then `ServiceName == Service`; any other type gives a Deployment. The name is `Service`. Metadata labels, selector and pod-template labels are all the input labels. Replicas is present, equal to `Replicas`, iff `Hpa` is false. There is exactly one container, named `Service` and using the image. |
| Workload.WorkloadTypeOnlyPicksKind | chart/workload.go:121-189 | The two branches build the same metadata, replicas, selector and pod template. Changing the workload type changes only the kind. |
| Workload.NewWorkloadChart | chart/workload.go:20-191 | The builder, assembled from its steps, produces exactly `WorkloadOf` of its inputs. |
| Decimal.NatToDecimalCorrect | chart/workload.go:114 | The rendering of a non-negative integer is a non-empty digit string with no leading zero, whose value is that integer. |
| Decimal.ItoaRoundTrip | chart/workload.go:114 | Parsing the rendering of an integer gives that integer back. |
| Decimal.ItoaInjective | chart/workload.go:114 | Distinct integers render to distinct strings. |
| Decimal.ItoaShape | chart/workload.go:114 | The rendering starts with '-' exactly when the integer is negative, and the rest is digits. |
| Decimal.ItoaExample | chart/workload.go:114 | 9090 renders as "9090", 0 as "0" and -7 as "-7". |
| Hpa.NewHpaChart | chart/hpa.go:11-53 | The name is `Service` and the labels are the input labels. MinReplicas is `Replicas` and MaxReplicas is `MaxReplicas`. The scale target has kind `WorkloadType` verbatim, name `Service` and apiVersion "apps/v1". There are exactly two metrics, memory first and cpu second, each of type Resource targeting 80% average utilization. |
| Hpa.HpaDependsOnlyOnItsFields | chart/hpa.go:14-26 | Two configurations that agree on Service, Replicas, MaxReplicas and WorkloadType give the same autoscaler for the same labels. |
| Hpa.HpaExample | chart/hpa.go:19-48 | Replicas 2 and MaxReplicas 10 give bounds min 2, max 10 and exactly the memory and cpu 80% metrics. |
| Hpa.HpaTargetsWorkload | chart/hpa.go:22-26 | The target name is the workload's name and the labels agree. The target kind is "statefulset" exactly when a StatefulSet is built. The workload leaves Replicas out exactly when `Hpa` is set. |
| Hpa.HpaKindNotDefaulted | chart/hpa.go:22-26 | Any type other than "statefulset" builds a Deployment. The autoscaler's target kind is still the raw type. |

## Left out

- The construct-tree registration is left out: `cdk8s.NewChart` and `k8s.NewKubeDeployment`, `NewKubeStatefulSet`, `NewKubeHorizontalPodAutoscalerV2Beta2` belong to a foreign library. Only the property values handed to them are modelled.
- The returned `cdk8s.Chart` and the `scope`, `id` and `props` parameters are left out, except `props.Labels`. That map is passed through unchanged, and a nil label map is not distinguished from an empty one.
- A nil `props` makes the Go code panic where it reads `props.Labels` (chart/workload.go:126 and :160, chart/hpa.go:16). The model has no nil `props`, so that panic is not represented.
- `Command` and `Args` are `[]*string` in Go, and label values are `*string`. The model uses `seq<string>` and `map<string, string>`, so a nil element cannot be represented. This loses nothing the builders do: they pass these values through unchanged and never look at an element.
- jsii pointer boxing and the `float64` conversions of `jsii.Number` are left out: numbers are Dafny integers, which is exact for the values a float64 represents exactly.
- `os.Getenv` is process I/O, so it is replaced with a lookup in an explicit environment map.
- `k8s.Quantity_FromString` is foreign parsing, so quantities stay opaque strings.
- `Image.String()` is foreign formatting, so the configuration carries the rendered image reference as a string.
- `config.Cfg` is a global, and its defining package is not part of this model. chart/workload.go imports it from `github.com/lwnmengjing/cd-template/pkg/config`. chart/hpa.go imports it from `github.com/lwnmengjing/cd-template-go/pkg/config`, a different module path. The fields are inferred from their uses, and integer widths are not modelled.
- Hpa.HpaTargetsWorkload: the model gives both builders one and the same configuration. As written, the two Go files import `config` (and `k8s`) from two different module paths, so they may read two separate `config.Cfg` variables, or the `chart` package may not build. This lemma, and the part of Hpa.HpaKindNotDefaulted that speaks of the built workload, hold only when both builders read the same configuration.
- YAML synthesis and writing the charts are external serialization and are left out.
- The HPA builder is modelled as a pure function. Whether it is called at all depends on `Hpa`, and that decision lies outside these two files and is not modelled.
