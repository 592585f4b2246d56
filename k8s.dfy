/**
 * The Kubernetes objects the chart builders produce, restricted to the fields they
 * populate. A field the Go code may leave as a nil pointer is an `Option`; the list
 * fields of a container and a pod are `Option` too, so that a present empty list and
 * an absent one stay distinguishable. Quantities are opaque strings.
 */
module K8s {
  import opened Wrappers

  type Quantity = string

  /** A label (or annotation) map. */
  type Labels = map<string, string>

  datatype ObjectMeta = ObjectMeta(
    name: Option<string>,
    labels: Labels,
    annotations: Option<map<string, string>>)

  datatype ContainerPort = ContainerPort(containerPort: int)

  datatype ObjectFieldSelector = ObjectFieldSelector(fieldPath: string)

  datatype EnvVarSource = EnvVarSource(fieldRef: Option<ObjectFieldSelector>)

  /** An environment variable: either a literal `value` or a `valueFrom` reference. */
  datatype EnvVar = EnvVar(name: string, value: Option<string>, valueFrom: Option<EnvVarSource>)

  datatype ConfigMapVolumeSource = ConfigMapVolumeSource(name: string)

  datatype Volume = Volume(name: string, configMap: Option<ConfigMapVolumeSource>)

  datatype VolumeMount = VolumeMount(mountPath: string, name: string, readOnly: Option<bool>)

  datatype ResourceRequirements = ResourceRequirements(
    limits: Option<map<string, Quantity>>,
    requests: Option<map<string, Quantity>>)

  datatype Container = Container(
    name: string,
    image: string,
    ports: Option<seq<ContainerPort>>,
    env: Option<seq<EnvVar>>,
    volumeMounts: Option<seq<VolumeMount>>,
    command: Option<seq<string>>,
    args: Option<seq<string>>,
    resources: ResourceRequirements)

  datatype PodSpec = PodSpec(
    serviceAccountName: Option<string>,
    containers: seq<Container>,
    volumes: Option<seq<Volume>>)

  datatype PodTemplateSpec = PodTemplateSpec(metadata: ObjectMeta, spec: PodSpec)

  datatype LabelSelector = LabelSelector(matchLabels: Labels)

  datatype DeploymentSpec = DeploymentSpec(
    replicas: Option<int>,
    selector: LabelSelector,
    template: PodTemplateSpec)

  datatype StatefulSetSpec = StatefulSetSpec(
    serviceName: string,
    replicas: Option<int>,
    selector: LabelSelector,
    template: PodTemplateSpec)

  datatype KubeDeployment = KubeDeployment(metadata: ObjectMeta, spec: DeploymentSpec)

  datatype KubeStatefulSet = KubeStatefulSet(metadata: ObjectMeta, spec: StatefulSetSpec)

  /** The primary workload resource: exactly one of the two kinds. */
  datatype Workload = Deployment(deployment: KubeDeployment) | StatefulSet(statefulSet: KubeStatefulSet) {

    function Metadata(): ObjectMeta {
      match this
      case Deployment(d) => d.metadata
      case StatefulSet(s) => s.metadata
    }

    function Replicas(): Option<int> {
      match this
      case Deployment(d) => d.spec.replicas
      case StatefulSet(s) => s.spec.replicas
    }

    function Selector(): LabelSelector {
      match this
      case Deployment(d) => d.spec.selector
      case StatefulSet(s) => s.spec.selector
    }

    function Template(): PodTemplateSpec {
      match this
      case Deployment(d) => d.spec.template
      case StatefulSet(s) => s.spec.template
    }
  }

  /** autoscaling/v2beta2 objects. */
  datatype CrossVersionObjectReference = CrossVersionObjectReference(
    kind: string,
    name: string,
    apiVersion: string)

  datatype MetricTarget = MetricTarget(targetType: string, averageUtilization: int)

  datatype ResourceMetricSource = ResourceMetricSource(name: string, target: MetricTarget)

  datatype MetricSpec = MetricSpec(metricType: string, resource: Option<ResourceMetricSource>)

  datatype HorizontalPodAutoscalerSpec = HorizontalPodAutoscalerSpec(
    minReplicas: int,
    maxReplicas: int,
    scaleTargetRef: CrossVersionObjectReference,
    metrics: seq<MetricSpec>)

  datatype KubeHorizontalPodAutoscaler = KubeHorizontalPodAutoscaler(
    metadata: ObjectMeta,
    spec: HorizontalPodAutoscalerSpec)
}
