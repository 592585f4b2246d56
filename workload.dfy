/**
 * The workload builder (`NewWorkloadChart`): compiles the configuration and a label
 * map into one Deployment or StatefulSet. The process environment it reads names
 * from is an explicit map; an unset name reads as the empty string.
 *
 * The first half of the module gives the result as functions of the inputs; the
 * method `NewWorkloadChart` builds it step by step, as the Go code does, and is
 * proved to produce exactly `WorkloadOf`. The lemmas at the end state the
 * promised properties of `WorkloadOf`.
 */
module Workload {
  import opened Wrappers
  import opened Config
  import opened K8s
  import Decimal

  /** A snapshot of the process environment. */
  type Environ = map<string, string>

  /** `os.Getenv`: the value of `name`, or "" when it is unset. */
  function Getenv(environ: Environ, name: string): string
  {
    if name in environ then environ[name] else ""
  }

  // ---------------------------------------------------------------- ports

  function ContainerPorts(ports: seq<PortConfig>): seq<ContainerPort>
  {
    seq(|ports|, i requires 0 <= i < |ports| => ContainerPort(ports[i].port))
  }

  // ---------------------------------------------------------------- environment

  /** The import names that contribute an entry: the non-empty ones, in input order. */
  function NonEmptyNames(names: seq<string>): seq<string>
  {
    if names == [] then []
    else (if names[0] == "" then [] else [names[0]]) + NonEmptyNames(names[1..])
  }

  /** The literal entry for an imported name. */
  function ImportedVar(name: string, environ: Environ): EnvVar
  {
    EnvVar(name, Some(Getenv(environ, name)), None)
  }

  function ImportedVars(names: seq<string>, environ: Environ): seq<EnvVar>
  {
    seq(|names|, i requires 0 <= i < |names| => ImportedVar(names[i], environ))
  }

  /** A variable whose value the cluster fills in from a field of the pod itself. */
  function FieldRefVar(name: string, fieldPath: string): EnvVar
  {
    EnvVar(name, None, Some(EnvVarSource(Some(ObjectFieldSelector(fieldPath)))))
  }

  const NodeNameVar: EnvVar := FieldRefVar("NODE_NAME", "metadata.name")
  const StageVar: EnvVar := FieldRefVar("STAGE", "metadata.namespace")

  /** The container environment: the imports, then NODE_NAME, then STAGE. */
  function EnvList(names: seq<string>, environ: Environ): (r: seq<EnvVar>)
    ensures |r| == |NonEmptyNames(names)| + 2
    ensures r[|r| - 2] == NodeNameVar && r[|r| - 1] == StageVar
    ensures forall i :: 0 <= i < |r| - 2 ==>
      r[i].name == NonEmptyNames(names)[i] && r[i].name != "" &&
      r[i].value == Some(Getenv(environ, r[i].name)) && r[i].valueFrom == None
  {
    NonEmptyNamesAreNonEmpty(names);
    ImportedVars(NonEmptyNames(names), environ) + [NodeNameVar, StageVar]
  }

  // ---------------------------------------------------------------- volumes

  function ConfigVolume(c: ConfigFile): Volume
  {
    Volume(c.name, Some(ConfigMapVolumeSource(c.name)))
  }

  function ConfigMount(c: ConfigFile): VolumeMount
  {
    VolumeMount(c.path, c.name, Some(true))
  }

  function ConfigVolumes(configs: seq<ConfigFile>): seq<Volume>
  {
    seq(|configs|, i requires 0 <= i < |configs| => ConfigVolume(configs[i]))
  }

  function ConfigMounts(configs: seq<ConfigFile>): seq<VolumeMount>
  {
    seq(|configs|, i requires 0 <= i < |configs| => ConfigMount(configs[i]))
  }

  // ---------------------------------------------------------------- pod settings

  /**
   * The effective service account: an explicit name always wins; otherwise the
   * derived `App-Service` when a service account is requested; otherwise none.
   */
  function ServiceAccountNameOf(cfg: WorkloadConfig): Option<string>
  {
    if cfg.serviceAccountName != "" then Some(cfg.serviceAccountName)
    else if cfg.serviceAccount then Some(cfg.app + "-" + cfg.service)
    else None
  }

  /** A configured sequence as an optional field: absent when empty, never `Some([])`. */
  function Optional(s: seq<string>): Option<seq<string>>
  {
    if |s| > 0 then Some(s) else None
  }

  /** The cpu/memory quantity map of one `Resources` entry. */
  function Quantities(r: Resource): map<string, Quantity>
  {
    map["cpu" := r.cpu, "memory" := r.memory]
  }

  /** The quantities stored under `key`, when the key is configured. */
  function QuantitiesAt(resources: map<string, Resource>, key: string): Option<map<string, Quantity>>
  {
    if key in resources then Some(Quantities(resources[key])) else None
  }

  /** Resource requirements: limits from key "limits", requests from key "requests". */
  function ResourcesOf(resources: map<string, Resource>): ResourceRequirements
  {
    ResourceRequirements(QuantitiesAt(resources, "limits"), QuantitiesAt(resources, "requests"))
  }

  const ScrapeKey := "prometheus.io/scrape"
  const PortKey := "prometheus.io/port"
  const PathKey := "prometheus.io/path"

  /** Pod annotations: the three Prometheus keys when scraping is on, none otherwise. */
  function AnnotationsOf(metrics: Metrics): map<string, string>
  {
    if metrics.scrape then
      map[ScrapeKey := "true", PortKey := Decimal.Itoa(metrics.port), PathKey := metrics.path]
    else map[]
  }

  /** The replica field: the configured count unless the autoscaler owns it. */
  function ReplicasOf(cfg: WorkloadConfig): Option<int>
  {
    if !cfg.hpa then Some(cfg.replicas) else None
  }

  // ---------------------------------------------------------------- the workload

  /** The single container of the pod. */
  function ContainerOf(cfg: WorkloadConfig, environ: Environ): Container
  {
    Container(
      cfg.service,
      cfg.image,
      Some(ContainerPorts(cfg.ports)),
      Some(EnvList(cfg.importEnvNames, environ)),
      Some(ConfigMounts(cfg.config)),
      Optional(cfg.command),
      Optional(cfg.args),
      ResourcesOf(cfg.resources))
  }

  function PodTemplateOf(cfg: WorkloadConfig, labels: Labels, environ: Environ): PodTemplateSpec
  {
    PodTemplateSpec(
      ObjectMeta(None, labels, Some(AnnotationsOf(cfg.metrics))),
      PodSpec(ServiceAccountNameOf(cfg), [ContainerOf(cfg, environ)], Some(ConfigVolumes(cfg.config))))
  }

  /** The workload resource the builder emits. */
  function WorkloadOf(cfg: WorkloadConfig, labels: Labels, environ: Environ): (w: Workload)
    ensures w.StatefulSet? <==> cfg.workloadType == "statefulset"
    ensures w.StatefulSet? ==> w.statefulSet.spec.serviceName == cfg.service
    ensures w.Metadata().name == Some(cfg.service)
    ensures w.Metadata().labels == labels
    ensures w.Selector().matchLabels == labels
    ensures w.Template().metadata.labels == labels
    ensures w.Replicas().Some? <==> !cfg.hpa
    ensures w.Replicas().Some? ==> w.Replicas().value == cfg.replicas
    ensures |w.Template().spec.containers| == 1
    ensures w.Template().spec.containers[0].name == cfg.service
    ensures w.Template().spec.containers[0].image == cfg.image
  {
    var meta := ObjectMeta(Some(cfg.service), labels, None);
    var selector := LabelSelector(labels);
    var template := PodTemplateOf(cfg, labels, environ);
    if cfg.workloadType == "statefulset" then
      StatefulSet(KubeStatefulSet(meta, StatefulSetSpec(cfg.service, ReplicasOf(cfg), selector, template)))
    else
      Deployment(KubeDeployment(meta, DeploymentSpec(ReplicasOf(cfg), selector, template)))
  }

  /** The `//port` step: one container port per configured port, in order. */
  method BuildPorts(ports: seq<PortConfig>) returns (r: seq<ContainerPort>)
    ensures r == ContainerPorts(ports)
  {
    r := [];
    for i := 0 to |ports|
      invariant |r| == i
      invariant forall j :: 0 <= j < i ==> r[j] == ContainerPort(ports[j].port)
    {
      r := r + [ContainerPort(ports[i].port)];
    }
  }

  /** The `//env` step: literal entries for the non-empty imports, then NODE_NAME and STAGE. */
  method BuildEnv(names: seq<string>, environ: Environ) returns (env: seq<EnvVar>)
    ensures env == EnvList(names, environ)
  {
    env := [];
    for i := 0 to |names|
      invariant env == ImportedVars(NonEmptyNames(names[..i]), environ)
    {
      var name := names[i];
      assert names[..i + 1] == names[..i] + [name];
      NonEmptyNamesAppend(names[..i], [name]);
      if name == "" {
        continue;
      }
      var v := Getenv(environ, name);
      env := env + [EnvVar(name, Some(v), None)];
    }
    assert names[..|names|] == names;
    env := env + [NodeNameVar, StageVar];
  }

  /** The `//config` step: a ConfigMap volume and a read-only mount per entry. */
  method BuildConfigVolumes(configs: seq<ConfigFile>) returns (volumes: seq<Volume>, volumeMounts: seq<VolumeMount>)
    ensures volumes == ConfigVolumes(configs)
    ensures volumeMounts == ConfigMounts(configs)
  {
    volumeMounts := [];
    volumes := [];
    if |configs| > 0 {
      var readOnly := true;
      for i := 0 to |configs|
        invariant |volumes| == i && |volumeMounts| == i
        invariant forall j :: 0 <= j < i ==> volumes[j] == ConfigVolume(configs[j])
        invariant forall j :: 0 <= j < i ==> volumeMounts[j] == ConfigMount(configs[j])
      {
        var c := configs[i];
        volumes := volumes + [Volume(c.name, Some(ConfigMapVolumeSource(c.name)))];
        volumeMounts := volumeMounts + [VolumeMount(c.path, c.name, Some(readOnly))];
      }
    }
  }

  /** The service-account step: the derived name, then an explicit name, the later one winning. */
  method ResolveServiceAccount(cfg: WorkloadConfig) returns (serviceAccountName: Option<string>)
    ensures serviceAccountName == ServiceAccountNameOf(cfg)
  {
    serviceAccountName := None;
    if cfg.serviceAccount {
      serviceAccountName := Some(cfg.app + "-" + cfg.service);
    }
    if cfg.serviceAccountName != "" {
      serviceAccountName := Some(cfg.serviceAccountName);
    }
  }

  /**
   * The resources step. Go visits the map in an unspecified order, modelled by letting
   * the loop pick any key still pending; the result is the same whatever the choices.
   */
  method BuildResources(configured: map<string, Resource>) returns (resources: ResourceRequirements)
    ensures resources == ResourcesOf(configured)
  {
    resources := ResourceRequirements(None, None);
    if |configured| > 0 {
      var pending := configured.Keys;
      while pending != {}
        invariant pending <= configured.Keys
        invariant resources.limits ==
          if "limits" in pending then None else QuantitiesAt(configured, "limits")
        invariant resources.requests ==
          if "requests" in pending then None else QuantitiesAt(configured, "requests")
        decreases pending
      {
        var k :| k in pending;
        var r := configured[k];
        if k == "limits" {
          resources := resources.(limits := Some(map["cpu" := r.cpu, "memory" := r.memory]));
        } else if k == "requests" {
          resources := resources.(requests := Some(map["cpu" := r.cpu, "memory" := r.memory]));
        }
        pending := pending - {k};
      }
    }
  }

  /** The annotations step: the map starts empty and gains the scrape keys when scraping. */
  method BuildAnnotations(metrics: Metrics) returns (annotations: map<string, string>)
    ensures annotations == AnnotationsOf(metrics)
  {
    annotations := map[];
    if metrics.scrape {
      annotations := annotations[ScrapeKey := "true"];
      annotations := annotations[PortKey := Decimal.Itoa(metrics.port)];
      annotations := annotations[PathKey := metrics.path];
    }
  }

  /** The builder, step by step as the Go function runs. */
  method NewWorkloadChart(cfg: WorkloadConfig, labels: Labels, environ: Environ) returns (w: Workload)
    ensures w == WorkloadOf(cfg, labels, environ)
  {
    var ports := BuildPorts(cfg.ports);
    var env := BuildEnv(cfg.importEnvNames, environ);
    var volumes, volumeMounts := BuildConfigVolumes(cfg.config);
    var serviceAccountName := ResolveServiceAccount(cfg);
    var command: Option<seq<string>> := None;
    if |cfg.command| > 0 {
      command := Some(cfg.command);
    }
    var args: Option<seq<string>> := None;
    if |cfg.args| > 0 {
      args := Some(cfg.args);
    }
    var resources := BuildResources(cfg.resources);
    var annotations := BuildAnnotations(cfg.metrics);
    var replicas: Option<int> := None;
    if !cfg.hpa {
      replicas := Some(cfg.replicas);
    }

    var container := Container(cfg.service, cfg.image, Some(ports), Some(env), Some(volumeMounts),
                               command, args, resources);
    var template := PodTemplateSpec(
      ObjectMeta(None, labels, Some(annotations)),
      PodSpec(serviceAccountName, [container], Some(volumes)));
    var meta := ObjectMeta(Some(cfg.service), labels, None);
    match cfg.workloadType {
      case "statefulset" =>
        w := StatefulSet(KubeStatefulSet(meta, StatefulSetSpec(cfg.service, replicas, LabelSelector(labels), template)));
      case _ =>
        w := Deployment(KubeDeployment(meta, DeploymentSpec(replicas, LabelSelector(labels), template)));
    }
  }

  // ---------------------------------------------------------------- lemmas on names

  /** Filtering the import names distributes over concatenation. */
  lemma {:induction false} NonEmptyNamesAppend(a: seq<string>, b: seq<string>)
    ensures NonEmptyNames(a + b) == NonEmptyNames(a) + NonEmptyNames(b)
  {
    if a == [] {
      assert a + b == b;
    } else {
      assert (a + b)[1..] == a[1..] + b;
      NonEmptyNamesAppend(a[1..], b);
    }
  }

  /** A name survives the filter exactly when it is configured and non-empty. */
  lemma {:induction false} NonEmptyNamesMembers(names: seq<string>, x: string)
    ensures x in NonEmptyNames(names) <==> x in names && x != ""
  {
    if names != [] {
      NonEmptyNamesMembers(names[1..], x);
      assert names == [names[0]] + names[1..];
    }
  }

  lemma {:induction false} NonEmptyNamesAreNonEmpty(names: seq<string>)
    ensures forall i :: 0 <= i < |NonEmptyNames(names)| ==> NonEmptyNames(names)[i] != ""
  {
    forall i | 0 <= i < |NonEmptyNames(names)|
      ensures NonEmptyNames(names)[i] != ""
    {
      NonEmptyNamesMembers(names, NonEmptyNames(names)[i]);
    }
  }

  /** Without empty names the filter keeps every name, in order. */
  lemma {:induction false} NonEmptyNamesKeepsAll(names: seq<string>)
    requires forall i :: 0 <= i < |names| ==> names[i] != ""
    ensures NonEmptyNames(names) == names
  {
    if names != [] {
      NonEmptyNamesKeepsAll(names[1..]);
    }
  }

  /** An empty import name, wherever it stands, changes nothing in the environment list. */
  lemma EnvSkipsEmptyName(a: seq<string>, b: seq<string>, environ: Environ)
    ensures EnvList(a + [""] + b, environ) == EnvList(a + b, environ)
  {
    NonEmptyNamesAppend(a + [""], b);
    NonEmptyNamesAppend(a, [""]);
    NonEmptyNamesAppend(a, b);
    assert NonEmptyNames([""]) == [];
  }

  /** Whatever the imports, the list ends with exactly NODE_NAME then STAGE, as field references. */
  lemma EnvEndsWithFieldRefs(names: seq<string>, environ: Environ)
    ensures var r := EnvList(names, environ);
      |r| >= 2 && r[|r| - 2..] == [NodeNameVar, StageVar] &&
      r[|r| - 2].name == "NODE_NAME" && r[|r| - 2].value == None &&
      r[|r| - 2].valueFrom == Some(EnvVarSource(Some(ObjectFieldSelector("metadata.name")))) &&
      r[|r| - 1].name == "STAGE" && r[|r| - 1].value == None &&
      r[|r| - 1].valueFrom == Some(EnvVarSource(Some(ObjectFieldSelector("metadata.namespace"))))
  {
  }

  // ---------------------------------------------------------------- lemmas on the workload

  /** The port list is present, one entry per configured port in order; empty when none. */
  lemma WorkloadPorts(cfg: WorkloadConfig, labels: Labels, environ: Environ)
    ensures var c := WorkloadOf(cfg, labels, environ).Template().spec.containers[0];
      c.ports.Some? && |c.ports.value| == |cfg.ports| &&
      (forall i :: 0 <= i < |cfg.ports| ==> c.ports.value[i].containerPort == cfg.ports[i].port) &&
      (cfg.ports == [] ==> c.ports == Some([]))
  {
  }

  /** The environment list: imports in order, then NODE_NAME and STAGE. */
  lemma WorkloadEnv(cfg: WorkloadConfig, labels: Labels, environ: Environ)
    ensures var c := WorkloadOf(cfg, labels, environ).Template().spec.containers[0];
      c.env == Some(EnvList(cfg.importEnvNames, environ)) &&
      |c.env.value| == |NonEmptyNames(cfg.importEnvNames)| + 2
  {
  }

  /** One volume and one read-only mount per config entry, both present, both in order. */
  lemma WorkloadVolumes(cfg: WorkloadConfig, labels: Labels, environ: Environ)
    ensures var t := WorkloadOf(cfg, labels, environ).Template();
      var c := t.spec.containers[0];
      t.spec.volumes.Some? && c.volumeMounts.Some? &&
      |t.spec.volumes.value| == |c.volumeMounts.value| == |cfg.config| &&
      (forall i :: 0 <= i < |cfg.config| ==>
        t.spec.volumes.value[i].name == cfg.config[i].name &&
        t.spec.volumes.value[i].configMap == Some(ConfigMapVolumeSource(cfg.config[i].name)) &&
        c.volumeMounts.value[i].name == cfg.config[i].name &&
        c.volumeMounts.value[i].mountPath == cfg.config[i].path &&
        c.volumeMounts.value[i].readOnly == Some(true))
  {
  }

  /** Service-account resolution in the pod spec. */
  lemma WorkloadServiceAccount(cfg: WorkloadConfig, labels: Labels, environ: Environ)
    ensures var s := WorkloadOf(cfg, labels, environ).Template().spec.serviceAccountName;
      (cfg.serviceAccountName != "" ==> s == Some(cfg.serviceAccountName)) &&
      (cfg.serviceAccountName == "" && cfg.serviceAccount ==> s == Some(cfg.app + "-" + cfg.service)) &&
      (cfg.serviceAccountName == "" && !cfg.serviceAccount ==> s == None)
  {
  }

  /** Command and Args are absent exactly when unconfigured, and otherwise unchanged. */
  lemma WorkloadCommandArgs(cfg: WorkloadConfig, labels: Labels, environ: Environ)
    ensures var c := WorkloadOf(cfg, labels, environ).Template().spec.containers[0];
      c.command != Some([]) && c.args != Some([]) &&
      (c.command.None? <==> cfg.command == []) && (c.command.Some? ==> c.command.value == cfg.command) &&
      (c.args.None? <==> cfg.args == []) && (c.args.Some? ==> c.args.value == cfg.args)
  {
  }

  /** Limits and requests come from their keys, with exactly cpu and memory. */
  lemma WorkloadResources(cfg: WorkloadConfig, labels: Labels, environ: Environ)
    ensures var r := WorkloadOf(cfg, labels, environ).Template().spec.containers[0].resources;
      (r.limits.Some? <==> "limits" in cfg.resources) &&
      (r.requests.Some? <==> "requests" in cfg.resources) &&
      (r.limits.Some? ==>
        r.limits.value.Keys == {"cpu", "memory"} &&
        r.limits.value["cpu"] == cfg.resources["limits"].cpu &&
        r.limits.value["memory"] == cfg.resources["limits"].memory) &&
      (r.requests.Some? ==>
        r.requests.value.Keys == {"cpu", "memory"} &&
        r.requests.value["cpu"] == cfg.resources["requests"].cpu &&
        r.requests.value["memory"] == cfg.resources["requests"].memory)
  {
  }

  /** A key other than "limits" and "requests" changes nothing. */
  lemma ResourcesIgnoreOtherKeys(resources: map<string, Resource>, k: string, r: Resource)
    requires k != "limits" && k != "requests"
    ensures ResourcesOf(resources[k := r]) == ResourcesOf(resources)
    ensures ResourcesOf(resources - {k}) == ResourcesOf(resources)
  {
  }

  /** The pod annotations: exactly the three scrape keys when scraping, none otherwise. */
  lemma WorkloadAnnotations(cfg: WorkloadConfig, labels: Labels, environ: Environ)
    ensures var a := WorkloadOf(cfg, labels, environ).Template().metadata.annotations;
      a.Some? &&
      (!cfg.metrics.scrape ==> a.value == map[]) &&
      (cfg.metrics.scrape ==> a.value.Keys == {"prometheus.io/scrape", "prometheus.io/port", "prometheus.io/path"}) &&
      (cfg.metrics.scrape ==>
        a.value == map[ScrapeKey := "true", PortKey := Decimal.Itoa(cfg.metrics.port), PathKey := cfg.metrics.path])
  {
  }

  /** An example: scraping on port 9090 at /metrics gives exactly the three annotations. */
  lemma ScrapeExample(cfg: WorkloadConfig, labels: Labels, environ: Environ)
    requires cfg.metrics == Metrics(true, 9090, "/metrics")
    ensures WorkloadOf(cfg, labels, environ).Template().metadata.annotations ==
      Some(map["prometheus.io/scrape" := "true", "prometheus.io/port" := "9090", "prometheus.io/path" := "/metrics"])
  {
    Decimal.ItoaExample();
  }

  /** The workload type only picks the kind: metadata, replicas and pod template do not depend on it. */
  lemma WorkloadTypeOnlyPicksKind(cfg: WorkloadConfig, t: string, labels: Labels, environ: Environ)
    ensures var w := WorkloadOf(cfg, labels, environ);
      var w' := WorkloadOf(cfg.(workloadType := t), labels, environ);
      w'.Metadata() == w.Metadata() && w'.Replicas() == w.Replicas() &&
      w'.Selector() == w.Selector() && w'.Template() == w.Template()
  {
  }
}
