/**
 * The autoscaler builder (`NewHpaChart`): one autoscaling/v2beta2
 * HorizontalPodAutoscaler of fixed shape, bound to the workload by kind and name.
 */
module Hpa {
  import opened Wrappers
  import opened Config
  import opened K8s
  import Workload

  const TargetApiVersion := "apps/v1"
  const TargetUtilization := 80

  /** A resource metric that targets the fixed average utilization. */
  function UtilizationMetric(resourceName: string): MetricSpec
  {
    MetricSpec("Resource", Some(ResourceMetricSource(resourceName, MetricTarget("Utilization", TargetUtilization))))
  }

  function NewHpaChart(cfg: WorkloadConfig, labels: Labels): (h: KubeHorizontalPodAutoscaler)
    ensures h.metadata.name == Some(cfg.service) && h.metadata.labels == labels
    ensures h.metadata.annotations == None
    ensures h.spec.minReplicas == cfg.replicas && h.spec.maxReplicas == cfg.maxReplicas
    ensures h.spec.scaleTargetRef.kind == cfg.workloadType
    ensures h.spec.scaleTargetRef.name == cfg.service
    ensures h.spec.scaleTargetRef.apiVersion == "apps/v1"
    ensures |h.spec.metrics| == 2
    ensures h.spec.metrics[0].resource.Some? && h.spec.metrics[0].resource.value.name == "memory"
    ensures h.spec.metrics[1].resource.Some? && h.spec.metrics[1].resource.value.name == "cpu"
    ensures forall m :: m in h.spec.metrics ==>
      m.metricType == "Resource" && m.resource.Some? &&
      m.resource.value.target == MetricTarget("Utilization", 80)
  {
    KubeHorizontalPodAutoscaler(
      ObjectMeta(Some(cfg.service), labels, None),
      HorizontalPodAutoscalerSpec(
        cfg.replicas,
        cfg.maxReplicas,
        CrossVersionObjectReference(cfg.workloadType, cfg.service, TargetApiVersion),
        [UtilizationMetric("memory"), UtilizationMetric("cpu")]))
  }

  /** The autoscaler reads only Service, Replicas, MaxReplicas, WorkloadType and the labels. */
  lemma HpaDependsOnlyOnItsFields(a: WorkloadConfig, b: WorkloadConfig, labels: Labels)
    requires a.service == b.service && a.replicas == b.replicas
    requires a.maxReplicas == b.maxReplicas && a.workloadType == b.workloadType
    ensures NewHpaChart(a, labels) == NewHpaChart(b, labels)
  {
  }

  /** An example: Replicas 2 and MaxReplicas 10 give bounds 2..10 and the two fixed metrics. */
  lemma HpaExample(cfg: WorkloadConfig, labels: Labels)
    requires cfg.replicas == 2 && cfg.maxReplicas == 10
    ensures var s := NewHpaChart(cfg, labels).spec;
      s.minReplicas == 2 && s.maxReplicas == 10 &&
      s.metrics == [UtilizationMetric("memory"), UtilizationMetric("cpu")]
  {
  }

  /**
   * The autoscaler names the workload the same configuration builds, and with the
   * replica field left out of the workload exactly when autoscaling is on.
   */
  lemma HpaTargetsWorkload(cfg: WorkloadConfig, labels: Labels, environ: Workload.Environ)
    ensures var h := NewHpaChart(cfg, labels);
      var w := Workload.WorkloadOf(cfg, labels, environ);
      Some(h.spec.scaleTargetRef.name) == w.Metadata().name &&
      h.metadata.labels == w.Metadata().labels &&
      (h.spec.scaleTargetRef.kind == "statefulset" <==> w.StatefulSet?) &&
      (cfg.hpa <==> w.Replicas() == None)
  {
  }

  /**
   * The target kind is the raw workload type: any type other than "statefulset" builds a
   * Deployment, yet the autoscaler's target kind keeps that raw value (the empty string
   * when unset) rather than the kind actually built.
   */
  lemma HpaKindNotDefaulted(cfg: WorkloadConfig, labels: Labels, environ: Workload.Environ)
    requires cfg.workloadType != "statefulset"
    ensures Workload.WorkloadOf(cfg, labels, environ).Deployment?
    ensures NewHpaChart(cfg, labels).spec.scaleTargetRef.kind == cfg.workloadType
  {
  }
}
