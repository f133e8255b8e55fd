/** The API types as Go keeps them: structs with pointers, slices and maps behind
    them.  Deep copies share no mutable cell with their original, so the status
    helpers, which overwrite conditions in place, cannot reach a snapshot. */
module ApiTypes {
  import opened Common
  import F = Fingerprint
  import M = Mcp
  import P = ConfigPropagation
  import S = StatusModel

  /** What a pointer or a map refers to. */
  class Cell<T> {
    var v: T

    constructor (v: T)
      ensures this.v == v
    {
      this.v := v;
    }
  }

  /** Contents of a slice; nil and empty slices are told apart. */
  ghost function Contents<T>(a: array?<T>): Option<seq<T>>
    reads a
  {
    if a == null then None else Some(a[..])
  }

  ghost function Deref<T>(c: Cell?<T>): Option<T>
    reads c
  {
    if c == null then None else Some(c.v)
  }

  /** Nil, or not there before. */
  twostate predicate New(new o: object?) { o != null ==> fresh(o) }

  method CopySlice<T(0)>(a: array?<T>) returns (b: array?<T>)
    ensures Contents(b) == Contents(a) && (b != null ==> fresh(b))
  {
    b := null;
    if a != null {
      var c := new T[a.Length];
      for i := 0 to a.Length
        invariant c[..i] == a[..i]
      {
        c[i] := a[i];
        assert c[..i + 1] == c[..i] + [c[i]] && a[..i + 1] == a[..i] + [a[i]];
      }
      assert c[..] == c[..a.Length] && a[..] == a[..a.Length];
      b := c;
    }
  }

  method CopyCell<T>(c: Cell?<T>) returns (d: Cell?<T>)
    ensures Deref(d) == Deref(c) && (d != null ==> fresh(d))
  {
    if c == null {
      d := null;
    } else {
      d := new Cell(c.v);
    }
  }

  /** The map loop: entry by entry into a fresh map. */
  method CopyMap(c: Cell?<map<string, string>>) returns (d: Cell?<map<string, string>>)
    ensures Deref(d) == Deref(c) && (d != null ==> fresh(d))
  {
    if c == null {
      return null;
    }
    var e := new Cell(map[]);
    var remaining := c.v.Keys;
    while remaining != {}
      invariant remaining <= c.v.Keys && fresh(e)
      invariant e.v == c.v - remaining
      decreases |remaining|
    {
      var k :| k in remaining;
      e.v := e.v[k := c.v[k]];
      remaining := remaining - {k};
    }
    assert c.v - {} == c.v;
    d := e;
  }

  // ---------------------------------------------------------------- spec

  datatype SpecValue = SpecValue(
    image: string, namespace: string, replicas: Option<int>, pullSecrets: Option<seq<string>>,
    resources: Option<string>, args: Option<seq<string>>, nodeSelector: Option<map<string, string>>,
    securityContext: Option<string>)

  function Items<T>(a: Option<seq<T>>): seq<T> { if a.Some? then a.value else [] }

  /** What a spec means to the controller, which ranges over nil slices as over
      empty ones. */
  function Meaning(v: SpecValue): M.Spec {
    M.Spec(v.image, v.namespace, v.replicas, Items(v.args), Items(v.pullSecrets), v.resources, v.nodeSelector,
           v.securityContext)
  }

  function Entries(a: Option<map<string, string>>): map<string, string> { if a.Some? then a.value else map[] }

  /** Specs that differ only in nil against empty slices and maps. */
  predicate Alike(v: SpecValue, w: SpecValue) {
    && v == w.(pullSecrets := v.pullSecrets, args := v.args, nodeSelector := v.nodeSelector)
    && Items(v.pullSecrets) == Items(w.pullSecrets) && Items(v.args) == Items(w.args)
    && Entries(v.nodeSelector) == Entries(w.nodeSelector)
  }

  /** The controller deploys the same objects for them. */
  lemma AlikeSpecsDeployAlike(digest: string -> string, v: SpecValue, w: SpecValue, config: Option<F.Data>, kind: M.Kind)
    requires Alike(v, w)
    ensures M.Desired(digest, Meaning(v), config, kind) == M.Desired(digest, Meaning(w), config, kind)
  {
    assert M.NodeSelectorFor(Meaning(v)) == M.NodeSelectorFor(Meaning(w));
  }

  class KubeStateMetricsSpec {
    var image: string
    var namespace: string
    var replicas: Cell?<int>
    var pullSecrets: array?<string>
    var resources: Cell?<string>            // contents in serialised form
    var args: array?<string>
    var nodeSelector: Cell?<map<string, string>>
    var securityContext: Cell?<string>      // contents in serialised form

    ghost function Value(): SpecValue
      reads this, replicas, pullSecrets, resources, args, nodeSelector, securityContext
    {
      SpecValue(image, namespace, Deref(replicas), Contents(pullSecrets), Deref(resources),
                Contents(args), Deref(nodeSelector), Deref(securityContext))
    }

    /** All cells behind the struct are new. */
    twostate predicate Renewed()
      reads this
    {
      && New(replicas) && New(pullSecrets) && New(resources)
      && New(args) && New(nodeSelector) && New(securityContext)
    }

    constructor ()
    {
      image, namespace := "", "";
      replicas, pullSecrets, resources := null, null, null;
      args, nodeSelector, securityContext := null, null, null;
    }

    /** Fresh copies of everything behind the pointers. */
    method CopyPointers() returns (r: Cell?<int>, p: array?<string>, q: Cell?<string>, a: array?<string>,
                                   n: Cell?<map<string, string>>, c: Cell?<string>)
      ensures Deref(r) == Deref(replicas) && Contents(p) == Contents(pullSecrets)
      ensures Deref(q) == Deref(resources) && Contents(a) == Contents(args)
      ensures Deref(n) == Deref(nodeSelector) && Deref(c) == Deref(securityContext)
      ensures (r != null ==> fresh(r)) && (p != null ==> fresh(p)) && (q != null ==> fresh(q))
      ensures (a != null ==> fresh(a)) && (n != null ==> fresh(n)) && (c != null ==> fresh(c))
    {
      r := CopyCell(replicas);
      p := CopySlice(pullSecrets);
      q := CopyCell(resources);
      a := CopySlice(args);
      n := CopyMap(nodeSelector);
      c := CopyCell(securityContext);
    }

    /** `DeepCopyInto`: a shallow copy whose pointers are then replaced. */
    method DeepCopyInto(out: KubeStateMetricsSpec)
      requires out != this
      modifies out
      ensures out.Value() == old(Value()) && out.Renewed()
    {
      ShallowCopyInto(out);
      var r, p, q, a, n, c := CopyPointers();
      out.replicas, out.pullSecrets, out.resources := r, p, q;
      out.args, out.nodeSelector, out.securityContext := a, n, c;
    }

    /** `*out = *in`. */
    method ShallowCopyInto(out: KubeStateMetricsSpec)
      requires out != this
      modifies out
      ensures out.image == image && out.namespace == namespace
    {
      out.image, out.namespace := image, namespace;
      out.replicas, out.pullSecrets, out.resources := replicas, pullSecrets, resources;
      out.args, out.nodeSelector, out.securityContext := args, nodeSelector, securityContext;
    }
  }

  // ---------------------------------------------------------------- status

  class KubeStateMetricsStatus {
    var conditions: array?<S.Condition>
    var observed: int
    var phase: string
    var configSource: string
    var configHash: string

    /** The status as a value; a nil list of conditions reads as an empty one. */
    ghost function Value(): S.Status
      reads this, conditions
    {
      S.Status(if conditions == null then [] else conditions[..], observed, phase, configSource, configHash)
    }

    constructor ()
      ensures Value() == S.EMPTY
    {
      conditions := null;
      observed, phase, configSource, configHash := 0, "", "", "";
    }

    /** `DeepCopyInto`. */
    method DeepCopyInto(out: KubeStateMetricsStatus)
      requires out != this
      modifies out
      ensures out.Value() == old(Value()) && (out.conditions == null <==> conditions == null)
      ensures New(out.conditions)
    {
      out.conditions, out.observed, out.phase := conditions, observed, phase;
      out.configSource, out.configHash := configSource, configHash;
      out.conditions := CopyConditions(conditions);
    }
  }

  /** The loop over the conditions; each one is copied as a struct. */
  method CopyConditions(a: array?<S.Condition>) returns (b: array?<S.Condition>)
    ensures Contents(b) == Contents(a) && (b != null ==> fresh(b))
  {
    b := null;
    if a != null {
      var c := new S.Condition[a.Length](_ => S.Condition("", false, 0, "", "", 0));
      for i := 0 to a.Length
        invariant c[..i] == a[..i]
      {
        c[i] := a[i];
        assert c[..i + 1] == c[..i] + [c[i]] && a[..i + 1] == a[..i] + [a[i]];
      }
      assert c[..] == c[..a.Length] && a[..] == a[..a.Length];
      b := c;
    }
  }

  // ---------------------------------------------------------------- metadata

  datatype OwnerReference = OwnerReference(apiVersion: string, kind: string, name: string, uid: string)

  datatype MetaValue = MetaValue(
    name: string, version: int, generation: int, deleting: bool, finalizers: Option<seq<string>>,
    labels: Option<map<string, string>>, annotations: Option<map<string, string>>,
    owners: Option<seq<OwnerReference>>)

  class ObjectMeta {
    var name: string
    var version: int
    var generation: int
    var deleting: bool
    var finalizers: array?<string>
    var labels: Cell?<map<string, string>>
    var annotations: Cell?<map<string, string>>
    var owners: array?<OwnerReference>

    ghost function Value(): MetaValue
      reads this, finalizers, labels, annotations, owners
    {
      MetaValue(name, version, generation, deleting, Contents(finalizers), Deref(labels), Deref(annotations),
                Contents(owners))
    }

    /** All cells behind the struct are new. */
    twostate predicate Renewed()
      reads this
    {
      New(finalizers) && New(labels) && New(annotations) && New(owners)
    }

    constructor ()
    {
      name, version, generation, deleting := "", 0, 0, false;
      finalizers, labels, annotations, owners := null, null, null, null;
    }

    /** Fresh copies of everything behind the pointers. */
    method CopyPointers() returns (f: array?<string>, l: Cell?<map<string, string>>, a: Cell?<map<string, string>>,
                                   o: array?<OwnerReference>)
      ensures Contents(f) == Contents(finalizers) && Deref(l) == Deref(labels)
      ensures Deref(a) == Deref(annotations) && Contents(o) == Contents(owners)
      ensures (f != null ==> fresh(f)) && (l != null ==> fresh(l))
      ensures (a != null ==> fresh(a)) && (o != null ==> fresh(o))
    {
      f := CopySlice(finalizers);
      l := CopyMap(labels);
      a := CopyMap(annotations);
      o := CopyOwners(owners);
    }

    /** `DeepCopyInto`: a shallow copy whose pointers are then replaced. */
    method DeepCopyInto(out: ObjectMeta)
      requires out != this
      modifies out
      ensures out.Value() == old(Value()) && out.Renewed()
    {
      out.name, out.version, out.generation, out.deleting := name, version, generation, deleting;
      var f, l, a, o := CopyPointers();
      out.finalizers, out.labels, out.annotations, out.owners := f, l, a, o;
    }
  }

  /** The loop over the owner references; each one is copied as a struct. */
  method CopyOwners(a: array?<OwnerReference>) returns (b: array?<OwnerReference>)
    ensures Contents(b) == Contents(a) && (b != null ==> fresh(b))
  {
    b := null;
    if a != null {
      var c := new OwnerReference[a.Length](_ => OwnerReference("", "", "", ""));
      for i := 0 to a.Length
        invariant c[..i] == a[..i]
      {
        c[i] := a[i];
        assert c[..i + 1] == c[..i] + [c[i]] && a[..i + 1] == a[..i] + [a[i]];
      }
      assert c[..] == c[..a.Length] && a[..] == a[..a.Length];
      b := c;
    }
  }

  // ---------------------------------------------------------------- the object

  datatype ObjectValue = ObjectValue(meta: MetaValue, spec: SpecValue, status: S.Status)

  class KubeStateMetrics {
    const meta: ObjectMeta                  // structs held by value, hence never replaced
    const spec: KubeStateMetricsSpec
    const status: KubeStateMetricsStatus

    /** Every mutable cell that belongs to the object. */
    ghost function Footprint(): set<object?>
      reads meta, spec, status
    {
      {meta, spec, status}
      + {meta.finalizers, meta.labels, meta.annotations, meta.owners}
      + {spec.replicas, spec.pullSecrets, spec.resources, spec.args, spec.nodeSelector, spec.securityContext}
      + {status.conditions}
    }

    ghost function Value(): ObjectValue
      reads meta, spec, status, Footprint()
    {
      ObjectValue(meta.Value(), spec.Value(), status.Value())
    }

    constructor ()
      ensures fresh(meta) && fresh(spec) && fresh(status)
    {
      meta := new ObjectMeta();
      spec := new KubeStateMetricsSpec();
      status := new KubeStateMetricsStatus();
    }

    /** `DeepCopyInto`: metadata, spec and status in turn. */
    method DeepCopyInto(out: KubeStateMetrics)
      requires out.meta != meta && out.spec != spec && out.status != status
      modifies out.meta, out.spec, out.status
      ensures out.meta.Value() == old(meta.Value())
      ensures out.spec.Value() == old(spec.Value())
      ensures out.status.Value() == old(status.Value())
      ensures out.meta.Renewed() && out.spec.Renewed() && New(out.status.conditions)
    {
      meta.DeepCopyInto(out.meta);
      CopySpecAndStatus(out);
    }

    method CopySpecAndStatus(out: KubeStateMetrics)
      requires out.spec != spec && out.status != status
      modifies out.spec, out.status
      ensures out.spec.Value() == old(spec.Value()) && out.status.Value() == old(status.Value())
      ensures out.spec.Renewed() && New(out.status.conditions)
    {
      spec.DeepCopyInto(out.spec);
      status.DeepCopyInto(out.status);
    }
  }

  /** `DeepCopy`, whose receiver may be nil: an equal object none of whose cells
      existed before.  The original is untouched. */
  method DeepCopy(obj: KubeStateMetrics?) returns (out: KubeStateMetrics?)
    ensures out == null <==> obj == null
    ensures out != null ==> fresh(out.Footprint() - {null}) && out.Value() == old(obj.Value())
  {
    if obj == null {
      return null;
    }
    var copy := new KubeStateMetrics();
    obj.DeepCopyInto(copy);
    out := copy;
  }

  // ---------------------------------------------------------------- the status helpers in place

  /** `meta.SetStatusCondition`: overwrites a known condition where it stands and
      appends an unknown one to a new backing array. */
  method SetStatusCondition(status: KubeStateMetricsStatus, c: S.Condition, now: int)
    modifies status`conditions, status.conditions
    ensures status.Value() == old(status.Value()).(conditions := S.SetCondition(old(status.Value()).conditions, c, now))
    ensures status.conditions == old(status.conditions) || fresh(status.conditions)
  {
    ghost var before := status.Value().conditions;
    var n := if status.conditions == null then 0 else status.conditions.Length;
    var i := 0;
    while i < n && status.conditions[i].kind != c.kind
      invariant 0 <= i <= n
      invariant forall j :: 0 <= j < i ==> before[j].kind != c.kind
    {
      i := i + 1;
    }
    FindIs(before, c.kind, i);
    if i < n {
      var known := status.conditions[i];
      status.conditions[i] := S.Merge(known, c, now);
      assert status.conditions[..] == before[i := S.Merge(known, c, now)];
    } else {
      var a := status.conditions;
      var grown := new S.Condition[n + 1](_ => c.(transition := now));
      for j := 0 to n
        invariant grown[n] == c.(transition := now)
        invariant status.conditions == a && (a != null ==> a[..] == before)
        invariant grown[..j] == before[..j]
      {
        grown[j] := a[j];
        assert grown[..j + 1] == grown[..j] + [grown[j]] && before[..j + 1] == before[..j] + [before[j]];
      }
      assert grown[..] == grown[..n] + [grown[n]] && before[..n] == before;
      status.conditions := grown;
    }
  }

  lemma {:induction false} FindIs(cs: seq<S.Condition>, kind: string, i: nat)
    requires i <= |cs| && (i < |cs| ==> cs[i].kind == kind)
    requires forall j :: 0 <= j < i ==> cs[j].kind != kind
    ensures S.Find(cs, kind) == i
  {
    if i > 0 { FindIs(cs[1..], kind, i - 1); }
  }

  /** What all three helpers do: the condition, the generation and the phase. */
  method Report(obj: KubeStateMetrics, ready: bool, reason: string, message: string, phase: string, now: int)
    modifies obj.status, obj.status.conditions
    ensures obj.status.Value() == S.Report(old(obj.status.Value()), obj.meta.generation, ready, reason, message, phase, now)
    ensures obj.status.conditions == old(obj.status.conditions) || fresh(obj.status.conditions)
  {
    SetStatusCondition(obj.status, S.Condition(S.READY, ready, obj.meta.generation, reason, message, 0), now);
    obj.status.observed := obj.meta.generation;
    obj.status.phase := phase;
  }

  method StatusProgressing(obj: KubeStateMetrics, reason: string, message: string, now: int)
    modifies obj.status, obj.status.conditions
    ensures obj.status.Value() == S.Progressing(old(obj.status.Value()), obj.meta.generation, reason, message, now)
    ensures obj.status.conditions == old(obj.status.conditions) || fresh(obj.status.conditions)
  {
    Report(obj, false, reason, message, S.PROGRESSING, now);
  }

  method StatusReady(obj: KubeStateMetrics, now: int)
    modifies obj.status, obj.status.conditions
    ensures obj.status.Value() == S.Ready(old(obj.status.Value()), obj.meta.generation, now)
    ensures obj.status.conditions == old(obj.status.conditions) || fresh(obj.status.conditions)
  {
    Report(obj, true, "ReconcileSuccess", "Domain Service is ready", S.READY, now);
  }

  method StatusTerminating(obj: KubeStateMetrics, now: int)
    modifies obj.status, obj.status.conditions
    ensures obj.status.Value() == S.Terminating(old(obj.status.Value()), obj.meta.generation, now)
    ensures obj.status.conditions == old(obj.status.conditions) || fresh(obj.status.conditions)
  {
    Report(obj, false, "Terminating", "Cleanup in progress", S.TERMINATING, now);
  }

  /** The cells that helpers overwrite in `obj` are none of the snapshot's. */
  ghost predicate Apart(obj: KubeStateMetrics, snapshot: KubeStateMetrics)
    reads obj.status, snapshot.status
  {
    && obj.meta != snapshot.meta && obj.status != snapshot.status
    && (obj.status.conditions != null ==> obj.status.conditions != snapshot.status.conditions)
  }

  /** One helper call or generation bump. */
  method ReportOne(obj: KubeStateMetrics, op: S.Op)
    modifies obj.meta, obj.status, obj.status.conditions
    ensures S.Versioned(obj.status.Value(), obj.meta.generation)
         == S.Apply(S.Versioned(old(obj.status.Value()), old(obj.meta.generation)), op)
    ensures obj.status.conditions == old(obj.status.conditions) || fresh(obj.status.conditions)
  {
    match op
    case DoProgressing(reason, message, now) => StatusProgressing(obj, reason, message, now);
    case DoReady(now) => StatusReady(obj, now);
    case DoTerminating(now) => StatusTerminating(obj, now);
    case Bump(delta) => obj.meta.generation := obj.meta.generation + delta;
  }

  /** One such step next to an object whose cells it does not overwrite. */
  method ReportBeside(obj: KubeStateMetrics, snapshot: KubeStateMetrics, op: S.Op)
    requires Apart(obj, snapshot)
    modifies obj.meta, obj.status, obj.status.conditions
    ensures S.Versioned(obj.status.Value(), obj.meta.generation)
         == S.Apply(S.Versioned(old(obj.status.Value()), old(obj.meta.generation)), op)
    ensures obj.status.conditions == old(obj.status.conditions) || fresh(obj.status.conditions)
    ensures Apart(obj, snapshot) && snapshot.Value() == old(snapshot.Value())
  {
    ReportOne(obj, op);
    assert snapshot.meta.Value() == old(snapshot.meta.Value());
    assert snapshot.spec.Value() == old(snapshot.spec.Value());
    assert snapshot.status.Value() == old(snapshot.status.Value());
  }

  /** Any sequence of helper calls and generation bumps on an object, next to
      another one that shares no cell with it. */
  method ReportAll(obj: KubeStateMetrics, snapshot: KubeStateMetrics, ops: seq<S.Op>)
    requires Apart(obj, snapshot)
    modifies obj.meta, obj.status, obj.status.conditions
    ensures S.Versioned(obj.status.Value(), obj.meta.generation)
         == S.ApplyAll(S.Versioned(old(obj.status.Value()), old(obj.meta.generation)), ops)
    ensures snapshot.Value() == old(snapshot.Value())
  {
    ghost var all := S.ApplyAll(S.Versioned(obj.status.Value(), obj.meta.generation), ops);
    for i := 0 to |ops|
      invariant obj.status.conditions == old(obj.status.conditions) || fresh(obj.status.conditions)
      invariant S.ApplyAll(S.Versioned(obj.status.Value(), obj.meta.generation), ops[i..]) == all
      invariant Apart(obj, snapshot)
      invariant snapshot.Value() == old(snapshot.Value())
    {
      assert ops[i..][0] == ops[i] && ops[i..][1..] == ops[i + 1..];
      ReportBeside(obj, snapshot, ops[i]);
    }
  }

  /** The snapshot that serves as patch base keeps its as-read value whatever is
      reported on the object afterwards. */
  method SnapshotSurvives(obj: KubeStateMetrics, ops: seq<S.Op>) returns (snapshot: KubeStateMetrics)
    modifies obj.meta, obj.status, obj.status.conditions
    ensures snapshot.Value() == old(obj.Value())
    ensures S.Versioned(obj.status.Value(), obj.meta.generation)
         == S.ApplyAll(S.Versioned(old(obj.status.Value()), old(obj.meta.generation)), ops)
  {
    var copy := DeepCopy(obj);
    snapshot := copy;
    ReportAll(obj, snapshot, ops);
  }

  // ---------------------------------------------------------------- provider config

  class ProviderConfig {
    const meta: ObjectMeta                  // held by value
    var pollInterval: Cell?<int>            // seconds
    var defaultVersion: string
    var conditions: array?<S.Condition>

    ghost function Footprint(): set<object?>
      reads this, meta
    {
      {this, meta, pollInterval, conditions} + {meta.finalizers, meta.labels, meta.annotations, meta.owners}
    }

    constructor ()
      ensures fresh(meta)
    {
      meta := new ObjectMeta();
      pollInterval, defaultVersion, conditions := null, "", null;
    }

    /** `PollInterval`: one minute unless set. */
    function PollInterval(): int
      reads this, pollInterval
    {
      if pollInterval == null then 60 else pollInterval.v
    }

    /** What the reconcilers make of the object. */
    function Config(): P.Config
      reads this, meta, pollInterval
    {
      P.Config(meta.name, PollInterval(), defaultVersion)
    }

    /** `DeepCopyInto`: metadata, spec and status in turn. */
    method DeepCopyInto(out: ProviderConfig)
      requires out != this && out.meta != meta
      modifies out, out.meta
      ensures out.meta.Value() == old(meta.Value()) && out.defaultVersion == old(defaultVersion)
      ensures Deref(out.pollInterval) == old(Deref(pollInterval)) && Contents(out.conditions) == old(Contents(conditions))
      ensures out.meta.Renewed() && New(out.pollInterval) && New(out.conditions)
    {
      meta.DeepCopyInto(out.meta);
      CopySpecAndStatus(out);
    }

    method CopySpecAndStatus(out: ProviderConfig)
      requires out != this
      modifies out
      ensures out.defaultVersion == old(defaultVersion)
      ensures Deref(out.pollInterval) == old(Deref(pollInterval)) && Contents(out.conditions) == old(Contents(conditions))
      ensures New(out.pollInterval) && New(out.conditions)
    {
      var interval := CopyCell(pollInterval);
      var list := CopyConditions(conditions);
      out.pollInterval, out.defaultVersion, out.conditions := interval, defaultVersion, list;
    }

    /** `DeepCopy`: an equal config none of whose cells existed before. */
    method DeepCopy() returns (out: ProviderConfig)
      ensures fresh(out.Footprint() - {null})
      ensures out.meta.Value() == old(meta.Value()) && out.Config() == Config()
      ensures Contents(out.conditions) == Contents(conditions)
      ensures out.Config().pollInterval == if pollInterval == null then 60 else pollInterval.v
    {
      out := new ProviderConfig();
      DeepCopyInto(out);
    }
  }
}
