/** What ordered writes and deletes make of the managed objects, over arbitrary
    histories of complete and partial passes with changing specs, namespaces and
    configurations. */
module McpHistory {
  import opened Common
  import opened Fingerprint
  import opened Mcp

  /** The controller-managed fields of the managed objects. */
  type View = map<Key, Fields>

  function ViewOf(objects: Objects): View {
    map k | k in objects && IsManaged(k) :: objects[k].fields
  }

  /** Creation order. */
  function WriteOrder(): seq<Kind> {
    [NamespaceKind, ServiceAccountKind, ClusterRoleKind, ClusterRoleBindingKind,
     DeploymentKind, ServiceKind, DisruptionBudgetKind]
  }

  /** Deletion order. */
  function DeleteOrder(): seq<Kind> {
    [ServiceKind, DisruptionBudgetKind, DeploymentKind,
     ClusterRoleBindingKind, ClusterRoleKind, ServiceAccountKind]
  }

  const WRITES := 7
  const DELETES := 6
  const EARLY_WRITES := 4   // those that come before the configuration is read

  /** Everything that decides what a deploy pass writes. */
  datatype Plan = Plan(digest: string -> string, spec: Spec, config: Option<Data>)

  function Ns(p: Plan): string { TargetNamespace(p.spec) }

  ghost function Want(p: Plan, kind: Kind): Fields { Desired(p.digest, p.spec, p.config, kind) }

  /** The view after the first `n` writes; the Namespace is not part of it. */
  ghost function Written(v: View, p: Plan, n: nat): View
    requires n <= WRITES
  {
    if n == 0 then v
    else if n == 1 then Written(v, p, 0)
    else Written(v, p, n - 1)[KeyOf(WriteOrder()[n - 1], Ns(p)) := Want(p, WriteOrder()[n - 1])]
  }

  /** The view after the first `n` deletes. */
  function Erased(v: View, ns: string, n: nat): View
    requires n <= DELETES
  {
    if n == 0 then v else Erased(v, ns, n - 1) - {KeyOf(DeleteOrder()[n - 1], ns)}
  }

  /** The pass of a deploy or a cleanup that got as far as its n-th call. */
  datatype Pass = Deployed(plan: Plan, n: nat) | Cleaned(ns: string, m: nat)

  predicate Legal(pass: Pass) {
    match pass
    case Deployed(_, n) => n <= WRITES
    case Cleaned(_, m) => m <= DELETES
  }

  predicate AllLegal(h: seq<Pass>) { forall i :: 0 <= i < |h| ==> Legal(h[i]) }

  ghost function After(v: View, pass: Pass): View
    requires Legal(pass)
  {
    match pass
    case Deployed(plan, n) => Written(v, plan, n)
    case Cleaned(ns, m) => Erased(v, ns, m)
  }

  ghost function Replay(v: View, h: seq<Pass>): View
    requires AllLegal(h)
  {
    if h == [] then v else After(Replay(v, h[..|h| - 1]), h[|h| - 1])
  }

  // ---------------------------------------------------------------- self-stabilisation

  /** The position of a managed kind in the creation order. */
  function Position(kind: Kind): (i: nat)
    requires ManagedKind(kind)
    ensures 1 <= i < WRITES && WriteOrder()[i] == kind
  {
    match kind
    case ServiceAccountKind => 1
    case ClusterRoleKind => 2
    case ClusterRoleBindingKind => 3
    case DeploymentKind => 4
    case ServiceKind => 5
    case DisruptionBudgetKind => 6
  }

  lemma WhatIsWrittenAt(n: nat, ns: string, k: Key)
    requires 0 < n < WRITES
    ensures k == KeyOf(WriteOrder()[n], ns) <==> IsManaged(k) && k == KeyOf(k.kind, ns) && Position(k.kind) == n
    ensures k == KeyOf(WriteOrder()[n], ns) ==> k.kind == WriteOrder()[n]
  {
  }

  /** Key by key: the first `n` writes are at their desired values and every other
      object is as it was. */
  lemma {:induction false} WrittenAt(v: View, p: Plan, n: nat, k: Key)
    requires n <= WRITES
    ensures k in Written(v, p, n) <==>
            k in v || (IsManaged(k) && k == KeyOf(k.kind, Ns(p)) && Position(k.kind) < n)
    ensures k in Written(v, p, n) ==>
            Written(v, p, n)[k] ==
            if IsManaged(k) && k == KeyOf(k.kind, Ns(p)) && Position(k.kind) < n then Want(p, k.kind) else v[k]
  {
    if n > 1 {
      WrittenAt(v, p, n - 1, k);
      WhatIsWrittenAt(n - 1, Ns(p), k);
    }
  }

  lemma {:induction false} ErasedAt(v: View, ns: string, n: nat, k: Key)
    requires n <= DELETES
    ensures k in Erased(v, ns, n) <==> k in v && forall i :: 0 <= i < n ==> k != KeyOf(DeleteOrder()[i], ns)
    ensures k in Erased(v, ns, n) ==> Erased(v, ns, n)[k] == v[k]
  {
    if n > 0 { ErasedAt(v, ns, n - 1, k); }
  }

  /** The managed objects of a deployment in `ns`. */
  predicate Belongs(k: Key, ns: string) { IsManaged(k) && k == KeyOf(k.kind, ns) }

  lemma DeletedKeys(k: Key, ns: string)
    ensures Belongs(k, ns) <==> exists i :: 0 <= i < DELETES && k == KeyOf(DeleteOrder()[i], ns)
  {
    if Belongs(k, ns) {
      var i := match k.kind
        case ServiceKind => 0
        case DisruptionBudgetKind => 1
        case DeploymentKind => 2
        case ClusterRoleBindingKind => 3
        case ClusterRoleKind => 4
        case _ => 5;
      assert k == KeyOf(DeleteOrder()[i], ns);
    }
  }

  lemma ErasedAll(v: View, ns: string, k: Key)
    ensures k in Erased(v, ns, DELETES) <==> k in v && !Belongs(k, ns)
    ensures k in Erased(v, ns, DELETES) ==> Erased(v, ns, DELETES)[k] == v[k]
  {
    ErasedAt(v, ns, DELETES, k);
    DeletedKeys(k, ns);
  }

  /** Whatever happened before, one complete deploy puts every managed object of
      the target namespace at its desired fields and touches no other. */
  lemma SelfStabilising(v: View, h: seq<Pass>, p: Plan, k: Key)
    requires AllLegal(h)
    ensures var before := Replay(v, h);
            var after := Replay(v, h + [Deployed(p, WRITES)]);
            && (Belongs(k, Ns(p)) ==> k in after && after[k] == Want(p, k.kind))
            && (!Belongs(k, Ns(p)) ==> (k in after <==> k in before) && (k in after ==> after[k] == before[k]))
  {
    var g := h + [Deployed(p, WRITES)];
    assert g[..|g| - 1] == h;
    WrittenAt(Replay(v, h), p, WRITES, k);
  }

  /** A failed deploy is a prefix of the creation order; repeating it in full
      forgets how far it got. */
  lemma PartialDeployLeavesNoTrace(v: View, p: Plan, q: Plan, n: nat)
    requires n <= WRITES && Ns(p) == Ns(q)
    ensures Written(Written(v, p, n), q, WRITES) == Written(v, q, WRITES)
  {
    forall k
      ensures k in Written(Written(v, p, n), q, WRITES) <==> k in Written(v, q, WRITES)
      ensures k in Written(v, q, WRITES) ==>
              Written(Written(v, p, n), q, WRITES)[k] == Written(v, q, WRITES)[k]
    {
      WrittenAt(v, p, n, k);
      WrittenAt(Written(v, p, n), q, WRITES, k);
      WrittenAt(v, q, WRITES, k);
    }
  }

  /** A retry completes a partial cleanup. */
  lemma RetryCompletesCleanup(v: View, ns: string, n: nat)
    requires n <= DELETES
    ensures Erased(Erased(v, ns, n), ns, DELETES) == Erased(v, ns, DELETES)
  {
    forall k
      ensures k in Erased(Erased(v, ns, n), ns, DELETES) <==> k in Erased(v, ns, DELETES)
      ensures k in Erased(v, ns, DELETES) ==>
              Erased(Erased(v, ns, n), ns, DELETES)[k] == Erased(v, ns, DELETES)[k]
    {
      ErasedAt(v, ns, n, k);
      DeletedKeys(k, ns);
      ErasedAll(Erased(v, ns, n), ns, k);
      ErasedAll(v, ns, k);
    }
  }

  /** The writes before the Deployment do not depend on the configuration. */
  lemma {:induction false} EarlyWritesIgnoreConfig(v: View, p: Plan, config: Option<Data>, n: nat)
    requires n <= EARLY_WRITES
    ensures Written(v, p, n) == Written(v, p.(config := config), n)
  {
    if n > 1 { EarlyWritesIgnoreConfig(v, p, config, n - 1); }
  }

  // ---------------------------------------------------------------- references

  predicate In(v: View, kind: Kind, ns: string) { KeyOf(kind, ns) in v }

  ghost predicate WorkloadRefers(v: View, namespaces: set<string>) {
    && (forall ns :: In(v, ServiceKind, ns) || In(v, DisruptionBudgetKind, ns) ==> In(v, DeploymentKind, ns))
    && (forall ns :: In(v, DeploymentKind, ns) ==> In(v, ServiceAccountKind, ns))
    && (forall ns :: In(v, ServiceAccountKind, ns) ==> ns in namespaces)
  }

  predicate BindingRefers(v: View) {
    In(v, ClusterRoleBindingKind, "") ==>
      && In(v, ClusterRoleKind, "")
      && var b := v[KeyOf(ClusterRoleBindingKind, "")];
         b.BindingFields? && b.role == APP && b.subject in v
         && b.subject == KeyOf(ServiceAccountKind, b.subject.namespace)
  }

  /** No managed object refers to a managed object or namespace that is missing. */
  ghost predicate NoDangling(v: View, namespaces: set<string>) { WorkloadRefers(v, namespaces) && BindingRefers(v) }

  /** What an object of a kind in `ns` refers to is there. */
  ghost predicate MayWrite(v: View, namespaces: set<string>, kind: Kind, ns: string, f: Fields) {
    match kind
    case ServiceAccountKind => ns in namespaces
    case ClusterRoleBindingKind =>
      && In(v, ClusterRoleKind, "") && In(v, ServiceAccountKind, ns)
      && f.BindingFields? && f.role == APP && f.subject == KeyOf(ServiceAccountKind, ns)
    case DeploymentKind => In(v, ServiceAccountKind, ns)
    case ServiceKind => In(v, DeploymentKind, ns)
    case DisruptionBudgetKind => In(v, DeploymentKind, ns)
    case _ => true
  }

  /** Nothing refers to the object of a kind in `ns`. */
  predicate MayErase(v: View, kind: Kind, ns: string) {
    match kind
    case ServiceAccountKind => !In(v, DeploymentKind, ns) && !In(v, ClusterRoleBindingKind, "")
    case ClusterRoleKind => !In(v, ClusterRoleBindingKind, "")
    case DeploymentKind => !In(v, ServiceKind, ns) && !In(v, DisruptionBudgetKind, ns)
    case _ => true
  }

  lemma WriteKeepsWorkload(v: View, namespaces: set<string>, kind: Kind, ns: string, f: Fields)
    requires WorkloadRefers(v, namespaces) && ManagedKind(kind) && MayWrite(v, namespaces, kind, ns, f)
    ensures WorkloadRefers(v[KeyOf(kind, ns) := f], namespaces)
  {
    var w := v[KeyOf(kind, ns) := f];
    assert forall j, m :: In(w, j, m) <==> In(v, j, m) || KeyOf(j, m) == KeyOf(kind, ns);
  }

  lemma WriteKeepsBinding(v: View, namespaces: set<string>, kind: Kind, ns: string, f: Fields)
    requires BindingRefers(v) && ManagedKind(kind) && MayWrite(v, namespaces, kind, ns, f)
    ensures BindingRefers(v[KeyOf(kind, ns) := f])
  {
  }

  lemma WriteKeepsReferences(v: View, namespaces: set<string>, kind: Kind, ns: string, f: Fields)
    requires NoDangling(v, namespaces) && ManagedKind(kind) && MayWrite(v, namespaces, kind, ns, f)
    ensures NoDangling(v[KeyOf(kind, ns) := f], namespaces)
  {
    WriteKeepsWorkload(v, namespaces, kind, ns, f);
    WriteKeepsBinding(v, namespaces, kind, ns, f);
  }

  lemma EraseKeepsReferences(v: View, namespaces: set<string>, kind: Kind, ns: string)
    requires NoDangling(v, namespaces) && ManagedKind(kind) && MayErase(v, kind, ns)
    ensures NoDangling(v - {KeyOf(kind, ns)}, namespaces)
  {
    var w := v - {KeyOf(kind, ns)};
    assert forall j, m :: In(w, j, m) <==> In(v, j, m) && KeyOf(j, m) != KeyOf(kind, ns);
    assert KeyOf(ClusterRoleBindingKind, "") in v ==> In(v, ClusterRoleBindingKind, "");
  }

  /** Creation order: what a write refers to has been written before. */
  lemma CreationOrderIsSound(v: View, p: Plan, n: nat, namespaces: set<string>)
    requires 0 < n < WRITES && Ns(p) in namespaces
    ensures MayWrite(Written(v, p, n), namespaces, WriteOrder()[n], Ns(p), Want(p, WriteOrder()[n]))
  {
    WrittenAt(v, p, n, KeyOf(ServiceAccountKind, Ns(p)));
    WrittenAt(v, p, n, KeyOf(ClusterRoleKind, ""));
    WrittenAt(v, p, n, KeyOf(DeploymentKind, Ns(p)));
  }

  /** Deletion order: what refers to an object has been deleted before. */
  lemma DeletionOrderIsSound(v: View, ns: string, n: nat)
    requires n < DELETES
    ensures MayErase(Erased(v, ns, n), DeleteOrder()[n], ns)
  {
    ErasedAt(v, ns, n, KeyOf(ServiceKind, ns));
    ErasedAt(v, ns, n, KeyOf(DisruptionBudgetKind, ns));
    ErasedAt(v, ns, n, KeyOf(DeploymentKind, ns));
    ErasedAt(v, ns, n, KeyOf(ClusterRoleBindingKind, ""));
    assert n > 0 ==> DeleteOrder()[0] == ServiceKind;
    assert n > 1 ==> DeleteOrder()[1] == DisruptionBudgetKind;
    assert n > 2 ==> DeleteOrder()[2] == DeploymentKind;
    assert n > 3 ==> DeleteOrder()[3] == ClusterRoleBindingKind;
  }

  lemma {:induction false} WritesKeepReferences(v: View, p: Plan, n: nat, namespaces: set<string>)
    requires n <= WRITES && NoDangling(v, namespaces) && (n > 1 ==> Ns(p) in namespaces)
    ensures NoDangling(Written(v, p, n), namespaces)
  {
    if n > 1 {
      WritesKeepReferences(v, p, n - 1, namespaces);
      CreationOrderIsSound(v, p, n - 1, namespaces);
      WriteKeepsReferences(Written(v, p, n - 1), namespaces, WriteOrder()[n - 1], Ns(p), Want(p, WriteOrder()[n - 1]));
    }
  }

  lemma {:induction false} ErasuresKeepReferences(v: View, ns: string, n: nat, namespaces: set<string>)
    requires n <= DELETES && NoDangling(v, namespaces)
    ensures NoDangling(Erased(v, ns, n), namespaces)
  {
    if n > 0 {
      ErasuresKeepReferences(v, ns, n - 1, namespaces);
      DeletionOrderIsSound(v, ns, n - 1);
      EraseKeepsReferences(Erased(v, ns, n - 1), namespaces, DeleteOrder()[n - 1], ns);
    }
  }

  /** The namespaces that the deploy passes of a history have created. */
  function Created(h: seq<Pass>): set<string> {
    if h == [] then {}
    else
      var last := h[|h| - 1];
      Created(h[..|h| - 1]) + (if last.Deployed? && last.n > 0 then {Ns(last.plan)} else {})
  }

  /** No history of complete or partial passes, in whatever namespaces, leaves a
      dangling reference at any point: every point is the end of a history. */
  lemma {:induction false} HistoriesKeepReferences(v: View, h: seq<Pass>, namespaces: set<string>)
    requires AllLegal(h) && NoDangling(v, namespaces)
    ensures NoDangling(Replay(v, h), namespaces + Created(h))
  {
    if h != [] {
      var init, last := h[..|h| - 1], h[|h| - 1];
      HistoriesKeepReferences(v, init, namespaces);
      var all := namespaces + Created(h);
      assert namespaces + Created(init) <= all;
      match last
      case Deployed(p, n) => WritesKeepReferences(Replay(v, init), p, n, all);
      case Cleaned(ns, m) => ErasuresKeepReferences(Replay(v, init), ns, m, all);
    }
  }

  // ---------------------------------------------------------------- leftovers

  predicate Namespaced(k: Key) { IsManaged(k) && !ClusterScoped(k.kind) }

  /** A history of deploys that all ran to their end. */
  predicate CompleteDeploys(h: seq<Pass>) {
    forall i :: 0 <= i < |h| ==> h[i].Deployed? && h[i].n == WRITES
  }

  lemma {:induction false} DeployedKeys(h: seq<Pass>, k: Key)
    requires AllLegal(h) && CompleteDeploys(h)
    ensures k in Replay(map[], h) <==> IsManaged(k) && h != [] && (ClusterScoped(k.kind) || k.namespace in Created(h))
  {
    if h != [] {
      var init, last := h[..|h| - 1], h[|h| - 1];
      DeployedKeys(init, k);
      WrittenAt(Replay(map[], init), last.plan, WRITES, k);
    }
  }

  /** Exact accounting: after complete deploys into any sequence of namespaces
      and a complete cleanup of one of them, what is left is the ServiceAccount,
      Deployment, Service and PodDisruptionBudget of every other namespace. */
  lemma LeftoversAreExact(h: seq<Pass>, ns: string, k: Key)
    requires AllLegal(h) && CompleteDeploys(h)
    ensures k in Replay(map[], h + [Cleaned(ns, DELETES)]) <==>
            Namespaced(k) && k.namespace in Created(h) && k.namespace != ns
  {
    CleanupEndsHistory(map[], h, ns);
    DeployedKeys(h, k);
    ErasedAll(Replay(map[], h), ns, k);
  }

  lemma CleanupEndsHistory(v: View, h: seq<Pass>, ns: string)
    requires AllLegal(h)
    ensures AllLegal(h + [Cleaned(ns, DELETES)])
    ensures Replay(v, h + [Cleaned(ns, DELETES)]) == Erased(Replay(v, h), ns, DELETES)
  {
    var g := h + [Cleaned(ns, DELETES)];
    assert g[..|g| - 1] == h;
  }

  /** With an unchanged namespace, cleanup undoes deploy. */
  lemma CleanupUndoesDeploy(v: View, p: Plan, n: nat)
    requires n <= WRITES && forall k :: k in v ==> !Belongs(k, Ns(p))
    ensures Erased(Written(v, p, n), Ns(p), DELETES) == v
  {
    forall k
      ensures k in Erased(Written(v, p, n), Ns(p), DELETES) <==> k in v
      ensures k in v ==> Erased(Written(v, p, n), Ns(p), DELETES)[k] == v[k]
    {
      WrittenAt(v, p, n, k);
      ErasedAll(Written(v, p, n), Ns(p), k);
    }
  }

  /** Whatever passes failed on the way, nothing is left outside the namespaces
      that some deploy had reached, and nothing at all in the one cleaned last. */
  lemma {:induction false} LeftoversAreBounded(h: seq<Pass>, ns: string, k: Key)
    requires AllLegal(h)
    ensures k in Replay(map[], h) ==> IsManaged(k) && (ClusterScoped(k.kind) || k.namespace in Created(h))
    ensures k in Replay(map[], h + [Cleaned(ns, DELETES)]) ==>
            Namespaced(k) && k.namespace in Created(h) && k.namespace != ns
  {
    CleanupEndsHistory(map[], h, ns);
    ErasedAll(Replay(map[], h), ns, k);
    if h != [] {
      var init, last := h[..|h| - 1], h[|h| - 1];
      LeftoversAreBounded(init, ns, k);
      match last
      case Deployed(p, n) => WrittenAt(Replay(map[], init), p, n, k);
      case Cleaned(m, i) => ErasedAt(Replay(map[], init), m, i, k);
    }
  }

  // ---------------------------------------------------------------- one namespace

  /** Objects in other namespaces are as they were. */
  ghost predicate OnlyTouches(ns: string, v: View, w: View) {
    forall k: Key :: k.namespace != "" && k.namespace != ns ==>
      (k in v <==> k in w) && (k in v && k in w ==> v[k] == w[k])
  }

  lemma BelongingIsListed(k: Key, ns: string)
    ensures Belongs(k, ns) <==> k in DeploymentKeys(ns)
  {
  }

  /** A deploy writes where the spec says, and without a namespace in the spec in
      the default one. */
  lemma DeployStaysAtHome(v: View, p: Plan, n: nat)
    requires n <= WRITES
    ensures var home := if p.spec.namespace == "" then "observability" else p.spec.namespace;
            && OnlyTouches(home, v, Written(v, p, n))
            && (n == WRITES ==> DeploymentKeys(home) <= Written(v, p, n).Keys)
  {
    var home := if p.spec.namespace == "" then "observability" else p.spec.namespace;
    forall k: Key | k.namespace != "" && k.namespace != home
      ensures (k in v <==> k in Written(v, p, n)) && (k in v ==> v[k] == Written(v, p, n)[k])
    {
      WrittenAt(v, p, n, k);
    }
    if n == WRITES {
      forall k | k in DeploymentKeys(home) ensures k in Written(v, p, n) {
        BelongingIsListed(k, home);
        WrittenAt(v, p, n, k);
      }
    }
  }

  /** And so does a cleanup. */
  lemma CleanupStaysAtHome(v: View, spec: Spec, n: nat)
    requires n <= DELETES
    ensures var home := if spec.namespace == "" then "observability" else spec.namespace;
            && OnlyTouches(home, v, Erased(v, TargetNamespace(spec), n))
            && (n == DELETES ==> DeploymentKeys(home) !! Erased(v, TargetNamespace(spec), n).Keys)
  {
    var home := if spec.namespace == "" then "observability" else spec.namespace;
    forall k: Key | k.namespace != "" && k.namespace != home
      ensures (k in v <==> k in Erased(v, TargetNamespace(spec), n))
      ensures k in v ==> v[k] == Erased(v, TargetNamespace(spec), n)[k]
    {
      ErasedAt(v, TargetNamespace(spec), n, k);
    }
    if n == DELETES {
      forall k | k in DeploymentKeys(home) ensures k !in Erased(v, TargetNamespace(spec), n) {
        BelongingIsListed(k, home);
        ErasedAll(v, TargetNamespace(spec), k);
      }
    }
  }
}
