/** The managed control plane as a map of objects, and what the controller wants
    to find in it. */
module Mcp {
  import opened Common
  import Text
  import opened Fingerprint

  datatype Kind =
    | NamespaceKind | ServiceAccountKind | ClusterRoleKind | ClusterRoleBindingKind
    | DeploymentKind | ServiceKind | DisruptionBudgetKind | ConfigMapKind | OtherKind

  /** Cluster-scoped objects have the empty namespace. */
  datatype Key = Key(kind: Kind, namespace: string, name: string)

  type Labels = map<string, string>

  datatype Rule = Rule(groups: seq<string>, resources: seq<string>, verbs: seq<string>)

  /** The parts of a pod template that depend on the spec or the configuration.
      Resources and the security context are carried in serialised form. */
  datatype PodTemplate = PodTemplate(
    labels: Labels, annotations: map<string, string>, serviceAccount: string,
    image: string, args: seq<string>, resources: Option<string>, configVolume: Option<string>,
    nodeSelector: map<string, string>, pullSecrets: seq<string>, securityContext: Option<string>)

  /** The fields the controller sets, by kind. */
  datatype Fields =
    | NamespaceFields
    | ServiceAccountFields(labels: Labels, automount: bool)
    | ClusterRoleFields(labels: Labels, rules: seq<Rule>)
    | BindingFields(labels: Labels, role: string, subject: Key)
    | DeploymentFields(labels: Labels, replicas: int, selector: Labels, template: PodTemplate)
    | ServiceFields(labels: Labels, headless: bool, selector: Labels)
    | BudgetFields(labels: Labels, minAvailable: int, selector: Labels)
    | ConfigMapFields(data: Data)
    | OtherFields

  /** An object: the fields above and everything else the cluster keeps in it. */
  datatype Object = Object(fields: Fields, rest: int)

  type Objects = map<Key, Object>

  datatype Spec = Spec(
    image: string, namespace: string, replicas: Option<int>, args: seq<string>, pullSecrets: seq<string>,
    resources: Option<string>, nodeSelector: Option<map<string, string>>, securityContext: Option<string>)

  const APP := "kube-state-metrics"
  const DEFAULT_NAMESPACE := "observability"
  const CONFIG_MAP := "kube-state-metrics-config"
  const HASH_ANNOTATION := "ksm.services.openmcp.cloud/config-hash"
  const CRS_KEY := "custom-resource-state-config.yaml"
  const STD_KEY := "config.yaml"
  const MOUNT := "/etc/kube-state-metrics/"
  const CRS_FLAG := "--custom-resource-state-config-file=" + MOUNT + CRS_KEY
  const CRS_ONLY_FLAG := "--custom-resource-state-only"
  const STD_FLAG := "--config=" + MOUNT + STD_KEY
  const OS_LABEL := "kubernetes.io/os"
  const SELECTOR: Labels := map["app.kubernetes.io/name" := APP]

  function ClusterRules(): seq<Rule> {
    [Rule(["authentication.k8s.io"], ["tokenreviews"], ["create"]),
     Rule(["authorization.k8s.io"], ["subjectaccessreviews"], ["create"]),
     Rule(["apiextensions.k8s.io"], ["customresourcedefinitions"], ["get", "list", "watch"]),
     Rule(["*"], ["*"], ["get", "list", "watch"])]
  }

  function TargetNamespace(spec: Spec): string {
    if spec.namespace == "" then DEFAULT_NAMESPACE else spec.namespace
  }

  predicate ClusterScoped(kind: Kind) {
    kind.NamespaceKind? || kind.ClusterRoleKind? || kind.ClusterRoleBindingKind?
  }

  /** The object of a kind that belongs to a deployment in namespace `ns`. */
  function KeyOf(kind: Kind, ns: string): Key {
    if kind.NamespaceKind? then Key(kind, "", ns)
    else if ClusterScoped(kind) then Key(kind, "", APP)
    else Key(kind, ns, APP)
  }

  /** Written out: the six objects of a deployment in a namespace. */
  function DeploymentKeys(ns: string): set<Key> {
    {Key(ServiceAccountKind, ns, "kube-state-metrics"), Key(ClusterRoleKind, "", "kube-state-metrics"),
     Key(ClusterRoleBindingKind, "", "kube-state-metrics"), Key(DeploymentKind, ns, "kube-state-metrics"),
     Key(ServiceKind, ns, "kube-state-metrics"), Key(DisruptionBudgetKind, ns, "kube-state-metrics")}
  }

  /** The six kinds that the controller creates and deletes. */
  predicate ManagedKind(kind: Kind) {
    !kind.NamespaceKind? && !kind.ConfigMapKind? && !kind.OtherKind?
  }

  predicate IsManaged(k: Key) { ManagedKind(k.kind) && k == KeyOf(k.kind, k.namespace) }

  // ---------------------------------------------------------------- desired fields

  predicate HasKey(config: Option<Data>, key: string) { config.Some? && key in config.value }

  /** The flags derived from the keys of the ConfigMap. */
  function DerivedFlags(config: Option<Data>): seq<string> {
    (if HasKey(config, STD_KEY) then [STD_FLAG] else [])
    + (if HasKey(config, CRS_KEY) && !HasKey(config, STD_KEY) then [CRS_ONLY_FLAG] else [])
    + (if HasKey(config, CRS_KEY) then [CRS_FLAG] else [])
  }

  /** The fingerprint that a configuration gets; none without a ConfigMap. */
  ghost function HashOf(digest: string -> string, config: Option<Data>): string {
    if config.None? then "" else Fingerprint.Fingerprint(digest, config.value)
  }

  function AnnotationsFor(hash: string): map<string, string> {
    if hash == "" then map[] else map[HASH_ANNOTATION := hash]
  }

  function NodeSelectorFor(spec: Spec): map<string, string> {
    map[OS_LABEL := "linux"] + (if spec.nodeSelector.Some? then spec.nodeSelector.value else map[])
  }

  /** What follows the last colon of the image, if there is one. */
  function VersionOf(image: string): string {
    if ':' in image then Text.AfterLast(image, ':') else "unknown"
  }

  function LabelsFor(spec: Spec): Labels {
    map["app.kubernetes.io/name" := APP,
        "app.kubernetes.io/component" := "exporter",
        "app.kubernetes.io/version" := VersionOf(spec.image)]
  }

  ghost function Template(digest: string -> string, spec: Spec, config: Option<Data>): PodTemplate {
    PodTemplate(
      LabelsFor(spec), AnnotationsFor(HashOf(digest, config)), APP,
      spec.image, DerivedFlags(config) + spec.args, spec.resources,
      if config.Some? then Some(CONFIG_MAP) else None,
      NodeSelectorFor(spec), spec.pullSecrets, spec.securityContext)
  }

  ghost function Desired(digest: string -> string, spec: Spec, config: Option<Data>, kind: Kind): Fields {
    match kind
    case NamespaceKind => NamespaceFields
    case ServiceAccountKind => ServiceAccountFields(LabelsFor(spec), false)
    case ClusterRoleKind => ClusterRoleFields(LabelsFor(spec), ClusterRules())
    case ClusterRoleBindingKind =>
      BindingFields(LabelsFor(spec), APP, KeyOf(ServiceAccountKind, TargetNamespace(spec)))
    case DeploymentKind =>
      DeploymentFields(LabelsFor(spec), if spec.replicas.Some? then spec.replicas.value else 1, SELECTOR,
                       Template(digest, spec, config))
    case ServiceKind => ServiceFields(LabelsFor(spec), true, SELECTOR)
    case DisruptionBudgetKind => BudgetFields(LabelsFor(spec), 1, SELECTOR)
    case _ => OtherFields
  }

  // ---------------------------------------------------------------- the code that computes them

  /** `buildLabels`. */
  method BuildLabels(spec: Spec) returns (labels: Labels)
    ensures labels == LabelsFor(spec)
  {
    var version := "unknown";
    if spec.image != "" {
      var cut := Text.SplitLast(spec.image, ":");
      Text.CutAtCharacter(spec.image, ':', cut);
      if cut.Parts? {
        version := cut.after;
      }
    }
    labels := map["app.kubernetes.io/name" := APP,
                  "app.kubernetes.io/component" := "exporter",
                  "app.kubernetes.io/version" := version];
  }

  /** The arguments: flags derived from the ConfigMap go in front, one by one. */
  method BuildArgs(spec: Spec, config: Option<Data>) returns (args: seq<string>)
    ensures args == DerivedFlags(config) + spec.args
  {
    args := spec.args;
    if config.Some? {
      var hasCRS := CRS_KEY in config.value;
      var hasStd := STD_KEY in config.value;
      if hasCRS {
        args := [CRS_FLAG] + args;
        if !hasStd {
          args := [CRS_ONLY_FLAG] + args;
        }
      }
      if hasStd {
        args := [STD_FLAG] + args;
      }
    }
  }

  /** The node selector: the default, overridden by the user's entries in
      whatever order the range loop yields them. */
  method BuildNodeSelector(spec: Spec) returns (selector: map<string, string>)
    ensures selector == NodeSelectorFor(spec)
  {
    selector := map[OS_LABEL := "linux"];
    if spec.nodeSelector.Some? {
      var user := spec.nodeSelector.value;
      var remaining := user.Keys;
      while remaining != {}
        invariant remaining <= user.Keys
        invariant selector == map[OS_LABEL := "linux"] + (user - remaining)
        decreases |remaining|
      {
        var k :| k in remaining;
        selector := selector[k := user[k]];
        remaining := remaining - {k};
      }
      assert user - {} == user;
    }
  }

  /** The pod template as the mutate closure of the Deployment assembles it. */
  method BuildTemplate(digest: string -> string, spec: Spec, config: Option<Data>, hash: string) returns (t: PodTemplate)
    requires hash == HashOf(digest, config)
    ensures t == Template(digest, spec, config)
  {
    var labels := BuildLabels(spec);
    var args := BuildArgs(spec, config);
    var selector := BuildNodeSelector(spec);
    var annotations: map<string, string> := map[];
    if hash != "" {
      annotations := annotations[HASH_ANNOTATION := hash];
    }
    t := PodTemplate(labels, annotations, APP, spec.image, args, spec.resources,
                     if config.Some? then Some(CONFIG_MAP) else None,
                     selector, spec.pullSecrets, spec.securityContext);
  }

  /** The Deployment as its mutate closure leaves it. */
  method BuildDeployment(digest: string -> string, spec: Spec, config: Option<Data>, hash: string) returns (f: Fields)
    requires hash == HashOf(digest, config)
    ensures f == Desired(digest, spec, config, DeploymentKind)
  {
    var template := BuildTemplate(digest, spec, config, hash);
    var labels := BuildLabels(spec);
    var replicas := if spec.replicas.Some? then spec.replicas.value else 1;
    f := DeploymentFields(labels, replicas, SELECTOR, template);
  }

  /** The Service and the PodDisruptionBudget as their closures leave them. */
  method BuildExposure(digest: string -> string, spec: Spec, ghost config: Option<Data>) returns (service: Fields, budget: Fields)
    ensures service == Desired(digest, spec, config, ServiceKind)
    ensures budget == Desired(digest, spec, config, DisruptionBudgetKind)
  {
    var labels := BuildLabels(spec);
    service := ServiceFields(labels, true, SELECTOR);
    budget := BudgetFields(labels, 1, SELECTOR);
  }

  // ---------------------------------------------------------------- what they compute, in words

  /** The version label is what follows the last colon of the image, or unknown. */
  lemma LabelsSay(spec: Spec)
    ensures var labels := LabelsFor(spec);
            && labels.Keys == {"app.kubernetes.io/name", "app.kubernetes.io/component", "app.kubernetes.io/version"}
            && labels["app.kubernetes.io/name"] == "kube-state-metrics"
            && labels["app.kubernetes.io/component"] == "exporter"
            && var version := labels["app.kubernetes.io/version"];
               if ':' in spec.image then ':' !in version && exists name :: spec.image == name + [':'] + version
               else version == "unknown"
  {
    if ':' in spec.image { var name := Text.AfterLastSplits(spec.image, ':'); }
  }

  /** The flag for the standard configuration comes first, or else the flag that
      switches it off when there is only the other one. */
  lemma FlagsSay(config: Option<Data>)
    ensures var std := config.Some? && "config.yaml" in config.value;
            var crs := config.Some? && "custom-resource-state-config.yaml" in config.value;
            DerivedFlags(config) ==
              (if std then [STD_FLAG] else if crs then [CRS_ONLY_FLAG] else []) + (if crs then [CRS_FLAG] else [])
  {
  }

  /** A user's entry wins over the default, which stands otherwise, and there are no
      other entries. */
  lemma NodeSelectorSays(spec: Spec, k: string)
    ensures var selector, user := NodeSelectorFor(spec), if spec.nodeSelector.Some? then spec.nodeSelector.value else map[];
            && (k in user ==> k in selector && selector[k] == user[k])
            && (k !in user && k == "kubernetes.io/os" ==> k in selector && selector[k] == "linux")
            && (k !in user && k != "kubernetes.io/os" ==> k !in selector)
  {
  }

  /** Pods with these labels are selected. */
  predicate Selects(selector: Labels, labels: Labels) {
    forall k :: k in selector ==> k in labels && labels[k] == selector[k]
  }

  /** The Deployment runs the image of the spec with the replicas of the spec, or
      one, and selects its own pods. */
  lemma DeploymentSays(digest: string -> string, spec: Spec, config: Option<Data>)
    ensures var f := Desired(digest, spec, config, DeploymentKind);
            && f.DeploymentFields? && f.replicas == (if spec.replicas.Some? then spec.replicas.value else 1)
            && f.labels == f.template.labels == LabelsFor(spec)
            && "app.kubernetes.io/name" in f.selector && Selects(f.selector, f.template.labels)
            && f.template.image == spec.image && f.template.serviceAccount == "kube-state-metrics"
            && f.template.args == DerivedFlags(config) + spec.args && f.template.nodeSelector == NodeSelectorFor(spec)
            && f.template.pullSecrets == spec.pullSecrets && f.template.resources == spec.resources
            && f.template.securityContext == spec.securityContext
            && f.template.configVolume == (if config.Some? then Some("kube-state-metrics-config") else None)
            && var hash := HashOf(digest, config);
               if hash == "" then f.template.annotations == map[]
               else f.template.annotations == map["ksm.services.openmcp.cloud/config-hash" := hash]
  {
  }

  /** The Service is headless, the budget keeps one pod, and both select the pods of
      the Deployment. */
  lemma ExposureSays(digest: string -> string, spec: Spec, config: Option<Data>)
    ensures var service, budget := Desired(digest, spec, config, ServiceKind), Desired(digest, spec, config, DisruptionBudgetKind);
            && service.ServiceFields? && service.headless && budget.BudgetFields? && budget.minAvailable == 1
            && "app.kubernetes.io/name" in service.selector && Selects(service.selector, LabelsFor(spec))
            && "app.kubernetes.io/name" in budget.selector && Selects(budget.selector, LabelsFor(spec))
  {
  }

  /** The binding gives the role to the account of the namespace that the spec names
      or else of the default one. */
  lemma AccessSays(digest: string -> string, spec: Spec, config: Option<Data>)
    ensures var account, binding := Desired(digest, spec, config, ServiceAccountKind), Desired(digest, spec, config, ClusterRoleBindingKind);
            && account.ServiceAccountFields? && !account.automount
            && binding.BindingFields? && binding.role == "kube-state-metrics"
            && binding.subject == Key(ServiceAccountKind, if spec.namespace == "" then "observability" else spec.namespace,
                                      "kube-state-metrics")
  {
  }

  // ---------------------------------------------------------------- rollouts

  /** All that a rollout can depend on besides the spec. */
  ghost function RolloutKey(digest: string -> string, config: Option<Data>): (bool, bool, bool, string) {
    (config.Some?, HasKey(config, CRS_KEY), HasKey(config, STD_KEY), HashOf(digest, config))
  }

  /** At a fixed spec the pod template changes exactly when the ConfigMap appears
      or disappears, gains or loses a special key, or changes its fingerprint. */
  lemma RolloutIsExact(digest: string -> string, spec: Spec, c: Option<Data>, d: Option<Data>)
    ensures Template(digest, spec, c) == Template(digest, spec, d) <==> RolloutKey(digest, c) == RolloutKey(digest, d)
  {
    FlagsIdentifyKeys(c, d, spec.args);
    if Template(digest, spec, c) == Template(digest, spec, d) {
      AnnotationsIdentifyHash(HashOf(digest, c), HashOf(digest, d));
    }
  }

  lemma AnnotationsIdentifyHash(h: string, i: string)
    requires AnnotationsFor(h) == AnnotationsFor(i)
    ensures h == i
  {
    assert h != "" ==> HASH_ANNOTATION in AnnotationsFor(h) && AnnotationsFor(h)[HASH_ANNOTATION] == h;
    assert i != "" ==> HASH_ANNOTATION in AnnotationsFor(i) && AnnotationsFor(i)[HASH_ANNOTATION] == i;
  }

  /** No user arguments can hide which flags were derived. */
  lemma FlagsIdentifyKeys(c: Option<Data>, d: Option<Data>, args: seq<string>)
    ensures DerivedFlags(c) + args == DerivedFlags(d) + args <==>
            HasKey(c, CRS_KEY) == HasKey(d, CRS_KEY) && HasKey(c, STD_KEY) == HasKey(d, STD_KEY)
  {
    var f, g := DerivedFlags(c), DerivedFlags(d);
    if f + args == g + args {
      assert |f + args| == |f| + |args| && |g + args| == |g| + |args|;
      assert f == (f + args)[..|f|] && g == (g + args)[..|g|];
      assert CRS_ONLY_FLAG[3] == 'u' && STD_FLAG[3] == 'o';
      assert |f| == |g| && (|f| == 2 ==> f[0] == g[0]);
      assert |f| == 2 ==> f[0] == if HasKey(c, STD_KEY) then STD_FLAG else CRS_ONLY_FLAG;
      assert |g| == 2 ==> g[0] == if HasKey(d, STD_KEY) then STD_FLAG else CRS_ONLY_FLAG;
    }
  }

  /** A real change of one entry of the ConfigMap rolls the pods out, unless it
      exhibits a collision of the digest. */
  lemma EditRollsOut(digest: string -> string, spec: Spec, data: Data, edit: Edit)
    requires forall s: string :: digest(s) != ""
    requires data != Apply(data, edit)
    requires digest(Printed(data)) == digest(Printed(Apply(data, edit))) ==> Printed(data) == Printed(Apply(data, edit))
    ensures Template(digest, spec, Some(data)) != Template(digest, spec, Some(Apply(data, edit)))
  {
    RolloutIsExact(digest, spec, Some(data), Some(Apply(data, edit)));
    if Fingerprint.Fingerprint(digest, data) == Fingerprint.Fingerprint(digest, Apply(data, edit)) {
      UnseenEditIsACollision(digest, data, edit);
    }
  }
}
