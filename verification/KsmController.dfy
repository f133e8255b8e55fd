/** The KubeStateMetrics controller, call by call, against a faulty environment. */
module KsmController {
  import opened Common
  import opened Fingerprint
  import opened Mcp
  import opened McpHistory
  import opened KsmLog
  import S = StatusModel

  /** `ctrl.Result`, in seconds, with the error it is returned with. */
  datatype Result = Result(after: int, err: bool)

  /** JSON merge patch of a status, field by field: what differs between the
      snapshot and the new status replaces what is stored. */
  function Patched(stored: S.Status, snapshot: S.Status, next: S.Status): S.Status {
    S.Status(
      if next.conditions == snapshot.conditions then stored.conditions else next.conditions,
      if next.observed == snapshot.observed then stored.observed else next.observed,
      if next.phase == snapshot.phase then stored.phase else next.phase,
      if next.configSource == snapshot.configSource then stored.configSource else next.configSource,
      if next.configHash == snapshot.configHash then stored.configHash else next.configHash)
  }

  /** Storing an object that is being deleted without finalizers removes it. */
  function Stored(w: World, k: Ksm): World {
    w.(obj := if k.deleting && k.finalizers == {} then None else Some(k.(version := w.clock + 1)), clock := w.clock + 1)
  }

  /** The same object, still held by our finalizer, with the same status. */
  predicate StillHeld(w: World, v: World) {
    Held(w) ==> Held(v) && v.obj.value.uid == w.obj.value.uid && v.obj.value.status == w.obj.value.status
  }

  /** The control plane as the controller manages it is untouched. */
  predicate McpUntouched(w: World, v: World) {
    ViewOf(v.objects) == ViewOf(w.objects) && NamespacesOf(w.objects) <= NamespacesOf(v.objects)
  }

  /** A pass that may write: it fetched a live object and holds its finalizer. */
  predicate Deploying(w: World, i: Info) { Held(w) && i.cluster && i.snap.Some? && !i.snap.value.deleting }

  /** A pass that may delete: it fetched an object being deleted. */
  predicate CleaningUp(w: World, i: Info) { Held(w) && i.cluster && i.snap.Some? && i.snap.value.deleting }

  predicate Annotated(objects: Objects, ns: string, annotations: map<string, string>) {
    var key := KeyOf(DeploymentKind, ns);
    key in objects && objects[key].fields.DeploymentFields? && objects[key].fields.template.annotations == annotations
  }

  lemma PuttingManaged(objects: Objects, k: Key, o: Object)
    requires IsManaged(k)
    ensures ViewOf(objects[k := o]) == ViewOf(objects)[k := o.fields]
    ensures Unmanaged(objects[k := o]) == Unmanaged(objects)
    ensures NamespacesOf(objects[k := o]) == NamespacesOf(objects)
  {
  }

  lemma RemovingManaged(objects: Objects, k: Key)
    requires IsManaged(k)
    ensures ViewOf(objects - {k}) == ViewOf(objects) - {k}
    ensures Unmanaged(objects - {k}) == Unmanaged(objects)
    ensures NamespacesOf(objects - {k}) == NamespacesOf(objects)
  {
  }

  lemma PuttingNamespace(objects: Objects, ns: string, o: Object)
    ensures var k := KeyOf(NamespaceKind, ns);
            && ViewOf(objects[k := o]) == ViewOf(objects)
            && Unmanaged(objects[k := o]) == Unmanaged(objects)
            && NamespacesOf(objects[k := o]) == NamespacesOf(objects) + {ns}
  {
    var k := KeyOf(NamespaceKind, ns);
    assert k.name == ns;
  }

  /** The object of a kind with new managed fields; what else it holds stays. */
  function WithObject(objects: Objects, kind: Kind, ns: string, f: Fields, rest: int): Objects {
    var key := KeyOf(kind, ns);
    objects[key := Object(f, if key in objects then objects[key].rest else rest)]
  }

  lemma PutIsSound(objects: Objects, known: set<string>, kind: Kind, ns: string, f: Fields, rest: int)
    requires NoDangling(ViewOf(objects), NamespacesOf(objects)) && ManagedKind(kind)
    requires known <= NamespacesOf(objects) && MayWrite(ViewOf(objects), known, kind, ns, f)
    ensures var v := WithObject(objects, kind, ns, f, rest);
            && ViewOf(v) == ViewOf(objects)[KeyOf(kind, ns) := f]
            && NamespacesOf(v) == NamespacesOf(objects) && Unmanaged(v) == Unmanaged(objects)
            && NoDangling(ViewOf(v), NamespacesOf(v))
  {
    var key := KeyOf(kind, ns);
    PuttingManaged(objects, key, Object(f, if key in objects then objects[key].rest else rest));
    WriteKeepsReferences(ViewOf(objects), NamespacesOf(objects), kind, ns, f);
  }

  lemma RemovalIsSound(objects: Objects, kind: Kind, ns: string)
    requires NoDangling(ViewOf(objects), NamespacesOf(objects)) && ManagedKind(kind)
    requires MayErase(ViewOf(objects), kind, ns)
    ensures var v := objects - {KeyOf(kind, ns)};
            && ViewOf(v) == ViewOf(objects) - {KeyOf(kind, ns)}
            && NamespacesOf(v) == NamespacesOf(objects) && Unmanaged(v) == Unmanaged(objects)
            && NoDangling(ViewOf(v), NamespacesOf(v))
  {
    RemovingManaged(objects, KeyOf(kind, ns));
    EraseKeepsReferences(ViewOf(objects), NamespacesOf(objects), kind, ns);
  }

  lemma MoreNamespaces(v: View, a: set<string>, b: set<string>)
    requires NoDangling(v, a) && a <= b
    ensures NoDangling(v, b)
  {
  }

  /** A namespace creation on the API server, which may fail with or without
      effect; an existing namespace is left alone. */
  method TryNamespace(objects: Objects, ns: string) returns (after: Objects, err: bool)
    requires NoDangling(ViewOf(objects), NamespacesOf(objects))
    ensures NoDangling(ViewOf(after), NamespacesOf(after))
    ensures ViewOf(after) == ViewOf(objects) && Unmanaged(after) == Unmanaged(objects)
    ensures !err ==> ns in NamespacesOf(after)
  {
    var applied: bool := *;
    var rest: int := *;
    err := *;
    after := objects;
    var key := KeyOf(NamespaceKind, ns);
    if key in objects {
      assert key.name in NamespacesOf(objects);
    } else if applied || !err {
      after := objects[key := Object(NamespaceFields, rest)];
      PuttingNamespace(objects, ns, Object(NamespaceFields, rest));
      MoreNamespaces(ViewOf(objects), NamespacesOf(objects), NamespacesOf(after));
    }
  }

  /** A create or update on the API server, which may fail with or without effect. */
  method TryPut(objects: Objects, ghost known: set<string>, kind: Kind, ns: string, f: Fields)
    returns (after: Objects, err: bool)
    requires NoDangling(ViewOf(objects), NamespacesOf(objects)) && ManagedKind(kind)
    requires known <= NamespacesOf(objects) && MayWrite(ViewOf(objects), known, kind, ns, f)
    ensures NoDangling(ViewOf(after), NamespacesOf(after))
    ensures NamespacesOf(after) == NamespacesOf(objects) && Unmanaged(after) == Unmanaged(objects)
    ensures ViewOf(after) == ViewOf(objects)[KeyOf(kind, ns) := f] || (err && ViewOf(after) == ViewOf(objects))
    ensures forall k :: k in objects ==> k in after && after[k].rest == objects[k].rest
  {
    var applied: bool := *;
    var rest: int := *;
    err := *;
    after := objects;
    if applied || !err {
      PutIsSound(objects, known, kind, ns, f, rest);
      after := WithObject(objects, kind, ns, f, rest);
    }
  }

  /** A delete on the API server, which may fail with or without effect. */
  method TryRemove(objects: Objects, kind: Kind, ns: string) returns (after: Objects, err: bool)
    requires NoDangling(ViewOf(objects), NamespacesOf(objects)) && ManagedKind(kind)
    requires MayErase(ViewOf(objects), kind, ns)
    ensures NoDangling(ViewOf(after), NamespacesOf(after))
    ensures NamespacesOf(after) == NamespacesOf(objects) && Unmanaged(after) == Unmanaged(objects)
    ensures ViewOf(after) == ViewOf(objects) - {KeyOf(kind, ns)} || (err && ViewOf(after) == ViewOf(objects))
  {
    var applied: bool := *;
    err := *;
    after := objects;
    if applied || !err {
      RemovalIsSound(objects, kind, ns);
      after := objects - {KeyOf(kind, ns)};
    }
  }

  /** The next write of a plan may be made and takes the pass along. */
  lemma NextWrite(digest: string -> string, i: Info, namespaces: set<string>, p: Plan, n: nat)
    requires 0 < n < WRITES && i.snap.Some? && p.spec == i.snap.value.spec && p.digest == digest
    requires n >= EARLY_WRITES ==> i.config == Some(p.config)
    requires Ns(p) in namespaces
    ensures var v, kind := Written(i.base, p, n), WriteOrder()[n];
            && ManagedKind(kind) && MayWrite(v, namespaces, kind, Ns(p), Want(p, kind))
            && v[KeyOf(kind, Ns(p)) := Want(p, kind)] == Written(i.base, p, n + 1)
            && OnTrack(digest, i, Written(i.base, p, n + 1))
  {
    CreationOrderIsSound(i.base, p, n, namespaces);
    assert Explains(digest, i, Written(i.base, p, n + 1), Deployed(p, n + 1));
  }

  /** The next delete of a cleanup may be made and takes the pass along. */
  lemma NextDelete(digest: string -> string, i: Info, ns: string, n: nat)
    requires n < DELETES && i.snap.Some? && ns == TargetNamespace(i.snap.value.spec)
    ensures var v, kind := Erased(i.base, ns, n), DeleteOrder()[n];
            && ManagedKind(kind) && MayErase(v, kind, ns)
            && v - {KeyOf(kind, ns)} == Erased(i.base, ns, n + 1)
            && OnTrack(digest, i, Erased(i.base, ns, n + 1))
  {
    DeletionOrderIsSound(i.base, ns, n);
    assert Explains(digest, i, Erased(i.base, ns, n + 1), Cleaned(ns, n + 1));
  }

  lemma CompleteIsDesired(v: View, p: Plan)
    ensures AllDesired(Written(v, p, WRITES), p)
  {
    forall kind | ManagedKind(kind)
      ensures KeyOf(kind, Ns(p)) in Written(v, p, WRITES)
      ensures Written(v, p, WRITES)[KeyOf(kind, Ns(p))] == Want(p, kind)
    {
      WrittenAt(v, p, WRITES, KeyOf(kind, Ns(p)));
    }
  }

  lemma DesiredIsAnnotated(objects: Objects, p: Plan)
    requires AllDesired(ViewOf(objects), p)
    ensures Annotated(objects, Ns(p), AnnotationsFor(HashOf(p.digest, p.config)))
  {
    assert ManagedKind(DeploymentKind);
  }

  /** What the mutate closures of the access objects set. */
  method MutateAccess(spec: Spec, ghost p: Plan) returns (account: Fields, role: Fields, binding: Fields)
    requires p.spec == spec
    ensures account == Want(p, ServiceAccountKind) && role == Want(p, ClusterRoleKind)
    ensures binding == Want(p, ClusterRoleBindingKind)
  {
    var labels := BuildLabels(spec);
    account := ServiceAccountFields(labels, false);
    role := ClusterRoleFields(labels, ClusterRules());
    binding := BindingFields(labels, APP, KeyOf(ServiceAccountKind, TargetNamespace(spec)));
  }

  lemma ListedAreManaged(objects: Objects, ns: string)
    ensures forall k :: k in DeploymentKeys(ns) && k in objects ==> k in ViewOf(objects)
  {
  }

  lemma CleanupLeavesNone(v: View, ns: string)
    ensures AllAbsent(Erased(v, ns, DELETES), ns)
  {
    forall k | k in Erased(v, ns, DELETES) ensures !Belongs(k, ns) { ErasedAll(v, ns, k); }
  }

  /** What a deletion pass is told: whether it got access, how many deletes took
      effect and whether one failed, how withdrawing access went, and what became
      of the last update. */
  datatype Answers = Answers(access: Setup, deletes: nat, cleanupErr: bool, withdrawal: Reply,
                             updateErr: bool, dropped: bool)

  predicate Plausible(a: Answers) {
    && a.deletes <= DELETES && (!a.cleanupErr ==> a.deletes == DELETES) && (!a.updateErr ==> a.dropped)
  }

  /** What a deletion pass was on the control plane. */
  function PassOf(ns: string, a: Answers): Pass {
    Cleaned(ns, if a.access.Ready? then a.deletes else 0)
  }

  lemma DeletePassIsAPass(v: View, ns: string, a: Answers)
    requires Plausible(a)
    ensures Legal(PassOf(ns, a)) && DeletePass(v, ns, a).0 == After(v, PassOf(ns, a))
    ensures var (_, res, dropped) := DeletePass(v, ns, a); !res.err && res.after == 0 ==> dropped
  {
  }

  /** The managed objects, the result and the fate of the finalizer after a
      deletion pass. */
  function DeletePass(v: View, ns: string, a: Answers): (View, Result, bool)
    requires Plausible(a)
  {
    if a.access.Ready? && a.cleanupErr then (Erased(v, ns, a.deletes), Result(0, true), false)
    else
      var u := if a.access.Ready? then Erased(v, ns, DELETES) else v;
      match a.withdrawal
      case Refused => (u, Result(0, true), false)
      case Replied(after) => if after > 0 then (u, Result(after, false), false) else (u, Result(0, a.updateErr), a.dropped)
  }

  /** A pass that drops the finalizer leaves none of the managed objects exactly
      when it got access or there were none. */
  lemma DropIsCleanIffAccessible(v: View, ns: string, a: Answers)
    requires Plausible(a) && DeletePass(v, ns, a).2
    ensures AllAbsent(DeletePass(v, ns, a).0, ns) <==> a.access.Ready? || AllAbsent(v, ns)
  {
    CleanupLeavesNone(v, ns);
  }

  /** A cleanup error blocks the finalizer, and the next pass with access that
      gets through its deletes erases what is left, however far the failed one
      had got. */
  lemma CleanupErrorBlocks(v: View, ns: string, a: Answers, b: Answers)
    requires Plausible(a) && Plausible(b)
    requires a.access.Ready? && a.cleanupErr && b.access.Ready? && !b.cleanupErr
    ensures !DeletePass(v, ns, a).2 && DeletePass(v, ns, a).1.err
    ensures DeletePass(DeletePass(v, ns, a).0, ns, b).0 == Erased(v, ns, DELETES)
    ensures AllAbsent(DeletePass(DeletePass(v, ns, a).0, ns, b).0, ns)
  {
    RetryCompletesCleanup(v, ns, a.deletes);
    CleanupLeavesNone(v, ns);
  }

  /** The pass has been told of an error. */
  function Told(i: Info, err: bool): Info { i.(failed := i.failed || err) }

  /** Nothing but errors may have been noted. */
  predicate Notes(i: Info, j: Info) { j == i.(failed := j.failed) && (i.failed ==> j.failed) }

  /** What an act tells the pass that is running. */
  function Learn(i: Info, act: Act): Info {
    match act
    case CallFailed => Told(i, true)
    case StatusFailed => Told(i, true)
    case AccessReplied(Refused) => Told(i, true).(access := Some(AccessError))
    case AccessReplied(Replied(after)) => if after > 0 then i.(access := Some(Wait(after))) else i.(granted := true)
    case ClusterRead(ok) => if ok then i.(access := Some(Ready), cluster := true) else i.(access := Some(Wait(30)))
    case Wrote(_) => i.(written := i.written + 1)
    case WriteFailed(_) => Told(i, true)
    case ReadConfig(c) => i.(config := Some(c))
    case DeleteFailed(_) => Told(i, true).(cleanupFailed := true)
    case Observed(ready, total) => i.(ready := Some(ready == total && total > 0))
    case WithdrawalReplied(Refused) => Told(i, true).(withdrawal := Some(Refused))
    case WithdrawalReplied(Replied(after)) => i.(withdrawal := Some(Replied(after)), withdrawn := i.withdrawn || after <= 0)
    case _ => i
  }

  predicate IsAnswer(act: Act) { act.AccessReplied? || act.ClusterRead? || act.WithdrawalReplied? }

  lemma AccessIsLearnt(i: Info, e: Entry)
    requires e.act.AccessReplied?
    ensures Advance(i, e) == Learn(i, e.act)
  {
  }

  lemma ClusterIsLearnt(i: Info, e: Entry)
    requires e.act.ClusterRead?
    ensures Advance(i, e) == Learn(i, e.act)
  {
  }

  lemma WithdrawalIsLearnt(i: Info, e: Entry)
    requires e.act.WithdrawalReplied?
    ensures Advance(i, e) == Learn(i, e.act)
  {
  }

  lemma WorkIsLearnt(i: Info, e: Entry)
    requires Touches(e.act) && (e.act.Wrote? ==> IsNextWrite(i, e.act))
    ensures Advance(i, e) == Learn(i, e.act)
  {
  }

  lemma RestIsLearnt(i: Info, e: Entry)
    requires !e.act.PassStart? && !Touches(e.act) && !IsAnswer(e.act)
    ensures Advance(i, e) == Learn(i, e.act)
  {
  }

  /** Acts that tell the pass nothing. */
  predicate Silent(act: Act) {
    act.Elsewhere? || act.FinalizerAdded? || act.StatusWritten? || act.Published? || act.FinalizerRemoved?
  }

  lemma SilenceTeachesNothing(i: Info, ev: Evidence, e: Entry)
    requires Silent(e.act)
    ensures Advance(i, e) == i && Gather(ev, i, e) == ev
  {
  }

  lemma AdvanceIsLearning(i: Info, e: Entry)
    requires !e.act.PassStart? && (e.act.Wrote? ==> IsNextWrite(i, e.act))
    ensures Advance(i, e) == Learn(i, e.act)
  {
    if e.act.AccessReplied? {
      AccessIsLearnt(i, e);
    } else if e.act.ClusterRead? {
      ClusterIsLearnt(i, e);
    } else if e.act.WithdrawalReplied? {
      WithdrawalIsLearnt(i, e);
    } else if Touches(e.act) {
      WorkIsLearnt(i, e);
    } else {
      RestIsLearnt(i, e);
    }
  }

  /** An act that leaves the object alone is tidy. */
  lemma SameObjectIsTidy(w: World, e: Entry, i: Info)
    requires e.world.obj == w.obj && !e.act.Elsewhere? && !e.act.FinalizerRemoved?
    requires !e.act.StatusWritten? && !e.act.Published? && (e.act.ClusterRead? ==> i.granted)
    ensures Tidy(w, e, i)
  {
  }

  lemma ElsewhereIsTidy(w: World, v: World, i: Info)
    requires ElsewhereActs(w, v)
    ensures Tidy(w, Entry(Elsewhere, v), i)
  {
  }

  /** Calls on the control plane that keep references sound obey the rules. */
  lemma ObjectRules(digest: string -> string, w: World, i: Info, ev: Evidence, act: Act, objects: Objects)
    requires Sound(w, i, ev) && OnTrack(digest, i, ViewOf(objects))
    requires act.Wrote? || act.WriteFailed? ==> Deploying(w, i)
    requires act.Deleted? || act.DeleteFailed? ==> CleaningUp(w, i)
    requires Touches(act) && (act.Wrote? ==> IsNextWrite(i, act))
    requires NoDangling(ViewOf(objects), NamespacesOf(objects)) && Unmanaged(objects) == Unmanaged(w.objects)
    ensures var e := Entry(act, w.(objects := objects));
            Rules(digest, NextPoint(w, i, ev, e)) && Advance(i, e) == Learn(i, act)
  {
    var e := Entry(act, w.(objects := objects));
    AdvanceIsLearning(i, e);
    SameObjectIsTidy(w, e, Learn(i, act));
    StaysOnTrack(digest, i, Learn(i, act), ViewOf(objects));
  }

  /** Acts that only tell the pass something: reads, answers of the access library
      and errors. */
  predicate OnlyTells(w: World, i: Info, act: Act) {
    || act.CallFailed? || act.StatusFailed? || act.AccessReplied? || act.WithdrawalReplied?
    || (act.ClusterRead? && i.granted)
    || (act.ReadConfig? && i.config.None? && i.snap.Some?
        && act.config == ConfigAt(w.objects, TargetNamespace(i.snap.value.spec)))
  }

  lemma TellingRules(digest: string -> string, w: World, i: Info, ev: Evidence, act: Act)
    requires Sound(w, i, ev) && OnTrack(digest, i, ViewOf(w.objects)) && OnlyTells(w, i, act)
    ensures Rules(digest, NextPoint(w, i, ev, Entry(act, w))) && Advance(i, Entry(act, w)) == Learn(i, act)
  {
    AdvanceIsLearning(i, Entry(act, w));
    SameObjectIsTidy(w, Entry(act, w), Learn(i, act));
    StaysOnTrack(digest, i, Learn(i, act), ViewOf(w.objects));
  }

  /** What others do obeys the rules and tells the pass nothing. */
  lemma ElsewhereRules(digest: string -> string, w: World, i: Info, ev: Evidence, v: World)
    requires Sound(w, i, ev) && OnTrack(digest, i, ViewOf(w.objects)) && ElsewhereActs(w, v)
    ensures Rules(digest, NextPoint(w, i, ev, Entry(Elsewhere, v)))
    ensures Advance(i, Entry(Elsewhere, v)) == i && Gather(ev, i, Entry(Elsewhere, v)) == ev
    ensures StillHeld(w, v) && McpUntouched(w, v)
  {
    SilenceTeachesNothing(i, ev, Entry(Elsewhere, v));
    ElsewhereIsTidy(w, v, i);
    MoreNamespaces(ViewOf(w.objects), NamespacesOf(w.objects), NamespacesOf(v.objects));
  }

  lemma StartRules(digest: string -> string, w: World, i: Info, ev: Evidence)
    requires Sound(w, i, ev) && w.obj.Some?
    ensures Rules(digest, NextPoint(w, i, ev, Entry(PassStart, w)))
  {
    StartIsOnTrack(digest, w);
    SameObjectIsTidy(w, Entry(PassStart, w), Started(w));
  }

  /** An object at the fetched version is the fetched one. */
  lemma CurrentIsFetched(w: World, i: Info, k: Ksm)
    requires VersionsTell(w, i) && i.snap.Some? && Current(w, k) && k.version == i.snap.value.version
    ensures w.obj == i.snap
  {
  }

  function Holding(k: Ksm): Ksm { k.(finalizers := k.finalizers + {FINALIZER}) }

  function Dropping(k: Ksm): Ksm { k.(finalizers := k.finalizers - {FINALIZER}) }

  lemma HoldingIsTidy(w: World, i: Info)
    requires w.obj.Some? && !w.obj.value.deleting
    ensures Tidy(w, Entry(FinalizerAdded, Stored(w, Holding(w.obj.value))), i)
  {
  }

  lemma DroppingIsTidy(w: World, i: Info)
    requires w.obj.Some?
    ensures Tidy(w, Entry(FinalizerRemoved, Stored(w, Dropping(w.obj.value))), i)
  {
  }

  lemma HoldRules(digest: string -> string, w: World, i: Info, ev: Evidence)
    requires Sound(w, i, ev) && OnTrack(digest, i, ViewOf(w.objects)) && w.obj.Some? && !w.obj.value.deleting
    ensures var e := Entry(FinalizerAdded, Stored(w, Holding(w.obj.value)));
            Rules(digest, NextPoint(w, i, ev, e)) && Advance(i, e) == i
  {
    SilenceTeachesNothing(i, ev, Entry(FinalizerAdded, Stored(w, Holding(w.obj.value))));
    HoldingIsTidy(w, i);
  }

  lemma ObserveRules(digest: string -> string, w: World, i: Info, ev: Evidence, ready: int, total: int)
    requires Sound(w, i, ev) && OnTrack(digest, i, ViewOf(w.objects))
    requires i.snap.Some? && i.config.Some? && i.written == WRITES
    requires AllDesired(ViewOf(w.objects), Plan(digest, i.snap.value.spec, i.config.value))
    ensures Rules(digest, NextPoint(w, i, ev, Entry(Observed(ready, total), w)))
    ensures Advance(i, Entry(Observed(ready, total), w)) == Learn(i, Observed(ready, total))
  {
    AdvanceIsLearning(i, Entry(Observed(ready, total), w));
    SameObjectIsTidy(w, Entry(Observed(ready, total), w), Learn(i, Observed(ready, total)));
    StaysOnTrack(digest, i, Learn(i, Observed(ready, total)), ViewOf(w.objects));
  }

  /** The status tells the configuration this pass has read and annotated. */
  ghost predicate PublishesConfig(digest: string -> string, w: World, i: Info, next: S.Status) {
    && i.snap.Some? && i.config.Some?
    && next.configHash == HashOf(digest, i.config.value)
    && next.configSource == (if i.config.value.Some? then "mcp" else "")
    && Annotated(w.objects, TargetNamespace(i.snap.value.spec), AnnotationsFor(next.configHash))
  }

  lemma SameDeployment(w: World, v: World)
    requires McpUntouched(w, v)
    ensures forall ns, a :: Annotated(w.objects, ns, a) ==> Annotated(v.objects, ns, a)
  {
    forall ns, a | Annotated(w.objects, ns, a) ensures Annotated(v.objects, ns, a) {
      var k := KeyOf(DeploymentKind, ns);
      assert k in ViewOf(w.objects) && ViewOf(w.objects)[k] == w.objects[k].fields;
      assert k in ViewOf(v.objects) && ViewOf(v.objects)[k] == v.objects[k].fields;
    }
  }

  /** A status that this pass may store: it goes on from what is stored, a Ready has
      been earned, and it says what the pass has to say. */
  ghost predicate MayStore(digest: string -> string, w: World, i: Info, ev: Evidence, act: Act, status: S.Status) {
    && Held(w) && i.snap.Some? && w.obj.value.uid == i.snap.value.uid
    && S.Reports(w.obj.value.status, status, i.snap.value.generation)
    && (status.phase == S.READY ==> (w.obj.value.uid, status.observed) in ev)
    && (act.StatusWritten? || act.Published?)
    && (act.StatusWritten? ==> SaysWhy(status, i.snap.value))
    && (act.Published? ==>
          && PublishesConfig(digest, w, i, status) && i.ready.Some?
          && SaysWhatItSaw(status, i.snap.value.generation, i.ready.value))
  }

  lemma MayStoreStays(digest: string -> string, w: World, i: Info, ev: Evidence, act: Act, status: S.Status, v: World)
    requires MayStore(digest, w, i, ev, act, status) && StillHeld(w, v) && McpUntouched(w, v)
    ensures MayStore(digest, v, i, ev, act, status)
  {
    SameDeployment(w, v);
  }

  lemma ReportingIsTidy(w: World, i: Info, act: Act, status: S.Status)
    requires Held(w) && i.snap.Some? && i.snap.value.generation <= w.obj.value.generation
    requires S.Reports(w.obj.value.status, status, i.snap.value.generation)
    requires act.StatusWritten? || act.Published?
    requires act.StatusWritten? ==> SaysWhy(status, i.snap.value)
    requires act.Published? ==> i.ready.Some? && SaysWhatItSaw(status, i.snap.value.generation, i.ready.value)
    ensures Tidy(w, Entry(act, Stored(w, w.obj.value.(status := status))), i)
  {
  }

  /** Storing such a status obeys the rules. */
  lemma StatusRules(digest: string -> string, w: World, i: Info, ev: Evidence, act: Act, status: S.Status)
    requires Sound(w, i, ev) && OnTrack(digest, i, ViewOf(w.objects)) && MayStore(digest, w, i, ev, act, status)
    ensures var e := Entry(act, Stored(w, w.obj.value.(status := status)));
            Rules(digest, NextPoint(w, i, ev, e)) && Advance(i, e) == i
  {
    SilenceTeachesNothing(i, ev, Entry(act, Stored(w, w.obj.value.(status := status))));
    ReportingIsTidy(w, i, act, status);
  }

  /** Dropping the finalizer obeys the rules after a pass that may do so. */
  lemma DropRules(digest: string -> string, w: World, i: Info, ev: Evidence)
    requires Sound(w, i, ev) && OnTrack(digest, i, ViewOf(w.objects)) && Held(w)
    requires MayDrop(w, i)
    ensures var e := Entry(FinalizerRemoved, Stored(w, Dropping(w.obj.value)));
            Rules(digest, NextPoint(w, i, ev, e)) && Advance(i, e) == i
  {
    SilenceTeachesNothing(i, ev, Entry(FinalizerRemoved, Stored(w, Dropping(w.obj.value))));
    DroppingIsTidy(w, i);
  }

  predicate MayDrop(w: World, i: Info) {
    && i.access.Some? && i.withdrawn && !i.cleanupFailed && i.snap.Some?
    && (i.cluster ==> AllAbsent(ViewOf(w.objects), TargetNamespace(i.snap.value.spec)))
  }

  /** The stored object is the fetched one, with the status it had, and `status`
      goes on from there. */
  ghost predicate GoesOn(w: World, i: Info, status: S.Status, snapshot: S.Status) {
    && Held(w) && i.snap.Some? && w.obj.value.uid == i.snap.value.uid && w.obj.value.status == snapshot
    && S.Reports(snapshot, status, i.snap.value.generation)
  }

  lemma DeployGoesOn(w: World, i: Info, status: S.Status, snapshot: S.Status, v: World, j: Info, source: string, hash: string)
    requires GoesOn(w, i, status, snapshot) && StillHeld(w, v) && j.snap == i.snap
    ensures GoesOn(v, j, status.(configSource := source, configHash := hash), snapshot)
  {
    S.ReportsWithConfig(snapshot, status, i.snap.value.generation, source, hash);
  }

  /** The status that a pass publishes after its deploy. */
  function Outcome(status: S.Status, generation: int, ready: bool, now: int): S.Status {
    if ready then S.Ready(status, generation, now)
    else S.Progressing(status, generation, "WaitingForPods", "Deployment created, waiting for pods to be ready", now)
  }

  lemma OutcomeSays(snapshot: S.Status, status: S.Status, generation: int, ready: bool, now: int)
    requires S.Reports(snapshot, status, generation)
    ensures var next := Outcome(status, generation, ready, now);
            && SaysWhatItSaw(next, generation, ready) && S.Reports(snapshot, next, generation)
            && next.observed == generation && (next.phase == S.READY <==> ready)
            && (next.configHash, next.configSource) == (status.configHash, status.configSource)
  {
    S.HelpersSay(status, generation, "WaitingForPods", "Deployment created, waiting for pods to be ready", now);
    S.ReportsInTurn(snapshot, status, Outcome(status, generation, ready, now), generation);
  }

  class KubeStateMetricsReconciler {
    const digest: string -> string
    var world: World
    var log: seq<Entry>       // what has happened; only a crash goes back in it
    ghost var info: Info
    ghost var evidence: Evidence

    /** A fresh process: any object next to a control plane whose managed objects
        refer to nothing that is missing. */
    constructor (digest: string -> string, w: World)
      requires NoDangling(ViewOf(w.objects), NamespacesOf(w.objects))
      requires w.obj.Some? ==> w.obj.value.version <= w.clock && w.obj.value.uid <= w.clock
      ensures Valid() && world == w
    {
      this.digest := digest;
      world := w;
      log := [Entry(Elsewhere, w)];
      info := NO_PASS;
      evidence := Inherited(w);
      new;
      FirstIsLawful(digest, w);
    }

    ghost predicate Valid()
      reads this
    {
      && Lawful(digest, log)
      && world == log[|log| - 1].world
      && info == InfoOf(log) && evidence == EvidenceOf(log)
    }

    lemma SoundNow()
      requires Valid()
      ensures Sound(world, info, evidence) && OnTrack(digest, info, ViewOf(world.objects))
    {
      LawfulAt(digest, log, |log| - 1);
      assert log[..|log|] == log;
    }

    ghost predicate Grown(before: seq<Entry>)
      reads this
    {
      Valid() && before <= log
    }

    method Record(act: Act, v: World)
      requires Valid()
      requires Rules(digest, NextPoint(world, info, evidence, Entry(act, v)))
      modifies this
      ensures Valid() && log == old(log) + [Entry(act, v)] && world == v
      ensures info == Advance(old(info), Entry(act, v))
      ensures evidence == Gather(old(evidence), info, Entry(act, v))
    {
      var e := Entry(act, v);
      ghost var p := NextPoint(world, info, evidence, e);
      OkAppends(digest, log, e, p);
      LawfulAppend(digest, log, e);
      FoldsAppend(log, e);
      log := log + [e];
      world := v;
      info := p.i;
      evidence := p.ev;
    }

    /** Acts of everybody else, before a call takes effect. */
    method Environment()
      requires Valid()
      modifies this
      ensures Grown(old(log)) && info == old(info) && evidence == old(evidence)
      ensures StillHeld(old(world), world) && McpUntouched(old(world), world)
    {
      var steps: nat := *;
      while steps > 0
        invariant Grown(old(log)) && info == old(info) && evidence == old(evidence)
        invariant StillHeld(old(world), world) && McpUntouched(old(world), world)
      {
        var v: World := *;
        if ElsewhereActs(world, v) {
          SoundNow();
          ElsewhereRules(digest, world, info, evidence, v);
          Record(Elsewhere, v);
        }
        steps := steps - 1;
      }
    }

    /** A call that only reads, or fails. */
    method Quiet(act: Act)
      requires Valid() && OnlyTells(world, info, act)
      modifies this
      ensures Grown(old(log)) && world == old(world) && evidence == old(evidence)
      ensures |log| > |old(log)| && log[|log| - 1] == Entry(act, world)
      ensures info == Learn(old(info), act)
    {
      SoundNow();
      TellingRules(digest, world, info, evidence, act);
      Record(act, world);
    }

    /** Notes that a call has reported an error, if it has. */
    method Note(err: bool)
      requires Valid()
      modifies this
      ensures Grown(old(log)) && world == old(world) && evidence == old(evidence) && info == Told(old(info), err)
    {
      if err { Quiet(CallFailed); }
    }

    /** The same for a status write. */
    method NoteStatus(err: bool)
      requires Valid()
      modifies this
      ensures Grown(old(log)) && world == old(world) && evidence == old(evidence) && info == Told(old(info), err)
      ensures err ==> |log| > |old(log)| && log[|log| - 1].act.StatusFailed?
      ensures !err ==> log == old(log)
    {
      if err { Quiet(StatusFailed); }
    }

    // -------------------------------------------------------------- calls on the onboarding cluster

    /** `Get`; a found object starts the pass. */
    method Get() returns (found: Option<Ksm>, err: bool)
      requires Valid()
      modifies this
      ensures Grown(old(log)) && McpUntouched(old(world), world)
      ensures err ==> |log| > |old(log)| && log[|log| - 1].act.CallFailed?
      ensures !err ==> found == world.obj
      ensures !err && found.Some? ==> info == Started(world) && Fetches(log, |old(log)|, found.value)
    {
      Environment();
      err := *;
      found := world.obj;
      if err {
        Quiet(CallFailed);
      } else if found.Some? {
        SoundNow();
        StartRules(digest, world, info, evidence);
        Record(PassStart, world);
        assert log[|log| - 1].world.obj == found;
      }
    }

    /** The update that persists the finalizer; it needs the fetched version. */
    method AddFinalizer(ksm: Ksm) returns (k: Ksm, err: bool)
      requires Valid() && info.snap == Some(ksm) && !ksm.deleting
      modifies this
      ensures Grown(old(log)) && info == Told(old(info), err) && evidence == old(evidence)
      ensures McpUntouched(old(world), world)
      ensures !err ==> Held(world) && world.obj == Some(k) && k == Holding(ksm).(version := k.version)
    {
      Environment();
      var applied: bool := *;
      err := *;
      k := ksm;
      if !Current(world, ksm) || (err && !applied) {
        err := true;
      } else {
        SoundNow();
        CurrentIsFetched(world, info, ksm);
        HoldRules(digest, world, info, evidence);
        Record(FinalizerAdded, Stored(world, Holding(ksm)));
        k := world.obj.value;
      }
      Note(err);
    }

    /** Stores a status, whatever the version. */
    method StoreStatus(act: Act, status: S.Status)
      requires Valid() && MayStore(digest, world, info, evidence, act, status)
      modifies this
      ensures Grown(old(log)) && info == old(info) && evidence == old(evidence)
      ensures |log| > |old(log)| && log[|log| - 1].act == act
      ensures world.objects == old(world).objects && Held(world)
      ensures world.obj.value == old(world).obj.value.(status := status, version := world.obj.value.version)
    {
      SoundNow();
      StatusRules(digest, world, info, evidence, act, status);
      Record(act, Stored(world, world.obj.value.(status := status)));
    }

    /** `Status().Update`: replaces the status at the fetched version.  A failure,
        which may come after the effect, is ignored. */
    method UpdateStatus(ksm: Ksm) returns (k: Ksm)
      requires Valid() && Held(world) && info.snap.Some? && ksm == info.snap.value.(status := ksm.status)
      requires S.Reports(info.snap.value.status, ksm.status, ksm.generation) && SaysWhy(ksm.status, ksm)
      modifies this
      ensures Grown(old(log)) && Notes(old(info), info) && evidence == old(evidence)
      ensures TriesStatus(log, |old(log)|)
      ensures McpUntouched(old(world), world) && Held(world)
      ensures world.obj.value.uid == old(world).obj.value.uid && k.spec == ksm.spec
      ensures world.obj.value.status == ksm.status || world.obj.value.status == old(world).obj.value.status
    {
      var stored := ReplaceStatus(ksm);
      var ok: bool := *;
      k := if stored && ok then world.obj.value else ksm;
      NoteStatus(!stored || !ok);
    }

    /** The part of it that may take effect. */
    method ReplaceStatus(ksm: Ksm) returns (stored: bool)
      requires Valid() && Held(world) && info.snap.Some? && ksm == info.snap.value.(status := ksm.status)
      requires S.Reports(info.snap.value.status, ksm.status, ksm.generation) && SaysWhy(ksm.status, ksm)
      modifies this
      ensures Grown(old(log)) && info == old(info) && evidence == old(evidence)
      ensures McpUntouched(old(world), world) && Held(world) && world.obj.value.uid == old(world).obj.value.uid
      ensures stored ==> world.obj.value.status == ksm.status && world.obj.value.spec == ksm.spec
      ensures stored ==> |log| > |old(log)| && log[|log| - 1].act.StatusWritten?
      ensures !stored ==> world.obj.value.status == old(world).obj.value.status
    {
      Environment();
      var applied: bool := *;
      stored := Current(world, ksm) && applied;
      if stored {
        SoundNow();
        CurrentIsFetched(world, info, ksm);
        StoreStatus(StatusWritten, ksm.status);
      }
    }

    /** `Status().Patch` against the snapshot taken before the status changed. */
    method PatchStatus(next: S.Status, snapshot: S.Status, act: Act) returns (err: bool)
      requires Valid() && MayStore(digest, world, info, evidence, act, next) && world.obj.value.status == snapshot
      modifies this
      ensures Grown(old(log)) && info == Told(old(info), err) && evidence == old(evidence)
      ensures McpUntouched(old(world), world) && Held(world) && TriesStatus(log, |old(log)|)
      ensures !err ==> world.obj.value.status == next
    {
      Environment();
      MayStoreStays(digest, old(world), info, evidence, act, next, world);
      var applied: bool := *;
      err := *;
      if !err || applied {
        StoreStatus(act, Patched(world.obj.value.status, snapshot, next));
      }
      NoteStatus(err);
    }

    /** The update that drops the finalizer; it needs the version last seen. */
    method RemoveFinalizer(ksm: Ksm) returns (err: bool)
      requires Valid() && Held(world) && MayDrop(world, info)
      modifies this
      ensures Grown(old(log)) && info == Told(old(info), err)
      ensures McpUntouched(old(world), world)
      ensures !err ==> !Held(world)
    {
      Environment();
      var applied: bool := *;
      err := *;
      if !Current(world, ksm) || (err && !applied) {
        err := true;
      } else {
        SoundNow();
        DropRules(digest, world, info, evidence);
        Record(FinalizerRemoved, Stored(world, Dropping(world.obj.value)));
      }
      Note(err);
    }

    // -------------------------------------------------------------- cluster access

    /** The access library's `Reconcile`. */
    method AskForAccess() returns (reply: Reply)
      requires Valid()
      modifies this
      ensures Grown(old(log)) && evidence == old(evidence)
      ensures StillHeld(old(world), world) && McpUntouched(old(world), world)
      ensures |log| > |old(log)| && log[|log| - 1].act == AccessReplied(reply)
      ensures reply.Refused? ==> info == Told(old(info), true).(access := Some(AccessError))
      ensures reply.Replied? && reply.after > 0 ==> info == old(info).(access := Some(Wait(reply.after)))
      ensures reply.Replied? && reply.after <= 0 ==> info == old(info).(granted := true)
    {
      Environment();
      reply := *;
      Quiet(AccessReplied(reply));
    }

    /** The access library's `MCPCluster`. */
    method GetCluster() returns (ok: bool)
      requires Valid() && info.granted
      modifies this
      ensures Grown(old(log)) && evidence == old(evidence)
      ensures StillHeld(old(world), world) && McpUntouched(old(world), world)
      ensures |log| > |old(log)| && log[|log| - 1].act == ClusterRead(ok)
      ensures ok ==> info == old(info).(access := Some(Ready), cluster := true)
      ensures !ok ==> info == old(info).(access := Some(Wait(30)))
    {
      Environment();
      ok := *;
      Quiet(ClusterRead(ok));
    }

    /** The access library's `ReconcileDelete`. */
    method AskForWithdrawal() returns (reply: Reply)
      requires Valid()
      modifies this
      ensures Grown(old(log)) && evidence == old(evidence)
      ensures StillHeld(old(world), world) && McpUntouched(old(world), world)
      ensures |log| > |old(log)| && log[|log| - 1].act == WithdrawalReplied(reply)
      ensures reply.Refused? ==> info == Told(old(info), true).(withdrawal := Some(reply))
      ensures reply.Replied? && reply.after > 0 ==> info == old(info).(withdrawal := Some(reply))
      ensures reply.Replied? && reply.after <= 0 ==> info == old(info).(withdrawal := Some(reply), withdrawn := true)
    {
      Environment();
      reply := *;
      Quiet(WithdrawalReplied(reply));
    }

    /** `setupClusterAccess`: an error of the library is an error, a time to come
        back is waited for, a cluster that cannot be read is waited for half a
        minute, and only what is left is access. */
    method SetupClusterAccess() returns (setup: Setup)
      requires Valid() && !info.cluster
      modifies this
      ensures Grown(old(log)) && evidence == old(evidence)
      ensures StillHeld(old(world), world) && McpUntouched(old(world), world)
      ensures |log| > |old(log)|
      ensures setup.AccessError? ==>
                log[|log| - 1].act == AccessReplied(Refused) && info == Told(old(info), true).(access := Some(AccessError))
      ensures setup.Wait? ==>
                && info == old(info).(granted := info.granted, access := Some(setup))
                && if log[|log| - 1].act == ClusterRead(false) then setup.after == 30
                   else setup.after > 0 && log[|log| - 1].act == AccessReplied(Replied(setup.after))
      ensures setup.Ready? ==>
                log[|log| - 1].act == ClusterRead(true)
                && info == old(info).(granted := true, access := Some(Ready), cluster := true)
    {
      var reply := AskForAccess();
      if reply.Refused? {
        return AccessError;
      }
      if reply.after > 0 {
        return Wait(reply.after);
      }
      var ok := GetCluster();
      return if ok then Ready else Wait(30);
    }

    // -------------------------------------------------------------- calls on the control plane

    /** Records a call on the control plane that left its references sound. */
    method RecordCall(act: Act, objects: Objects)
      requires Valid() && Touches(act) && (act.Wrote? ==> IsNextWrite(info, act))
      requires if act.Wrote? || act.WriteFailed? then Deploying(world, info) else CleaningUp(world, info)
      requires NoDangling(ViewOf(objects), NamespacesOf(objects)) && Unmanaged(objects) == Unmanaged(world.objects)
      requires OnTrack(digest, info, ViewOf(objects))
      modifies this
      ensures Grown(old(log)) && evidence == old(evidence) && world == old(world).(objects := objects)
      ensures info == Learn(old(info), act)
    {
      SoundNow();
      ObjectRules(digest, world, info, evidence, act, objects);
      Record(act, world.(objects := objects));
    }

    method RecordWrite(kind: Kind, err: bool, objects: Objects)
      requires Valid() && Deploying(world, info)
      requires info.written < WRITES && WriteOrder()[info.written] == kind
      requires NoDangling(ViewOf(objects), NamespacesOf(objects)) && Unmanaged(objects) == Unmanaged(world.objects)
      requires OnTrack(digest, info, ViewOf(objects))
      modifies this
      ensures Grown(old(log)) && evidence == old(evidence) && world == old(world).(objects := objects)
      ensures info == Told(old(info), err).(written := old(info).written + if err then 0 else 1)
    {
      if err {
        RecordCall(WriteFailed(kind), objects);
      } else {
        RecordCall(Wrote(kind), objects);
      }
    }

    method RecordDelete(kind: Kind, err: bool, objects: Objects)
      requires Valid() && CleaningUp(world, info)
      requires NoDangling(ViewOf(objects), NamespacesOf(objects)) && Unmanaged(objects) == Unmanaged(world.objects)
      requires OnTrack(digest, info, ViewOf(objects))
      modifies this
      ensures Grown(old(log)) && evidence == old(evidence) && world == old(world).(objects := objects)
      ensures !err ==> info == old(info)
      ensures err ==> info == Told(old(info), true).(cleanupFailed := true)
    {
      if err {
        RecordCall(DeleteFailed(kind), objects);
      } else {
        RecordCall(Deleted(kind), objects);
      }
    }

    /** `CreateOrUpdate` of the Namespace, whose mutation changes nothing. */
    method CreateNamespace(ns: string) returns (err: bool)
      requires Valid() && Deploying(world, info) && info.written == 0
      modifies this
      ensures Grown(old(log)) && evidence == old(evidence) && StillHeld(old(world), world)
      ensures ViewOf(world.objects) == old(ViewOf(world.objects))
      ensures !err ==> ns in NamespacesOf(world.objects)
      ensures info == Told(old(info), err).(written := if err then 0 else 1)
    {
      Environment();
      SoundNow();
      var after;
      after, err := TryNamespace(world.objects, ns);
      RecordWrite(NamespaceKind, err, after);
    }

    /** `CreateOrUpdate` of the managed object next in order: sets its managed
        fields and keeps the rest.  A failed call may have taken effect. */
    method CreateOrUpdate(kind: Kind, ns: string, f: Fields) returns (err: bool)
      requires Valid() && Deploying(world, info) && ManagedKind(kind)
      requires info.written < WRITES && WriteOrder()[info.written] == kind
      requires MayWrite(ViewOf(world.objects), NamespacesOf(world.objects), kind, ns, f)
      requires OnTrack(digest, info, ViewOf(world.objects)[KeyOf(kind, ns) := f])
      modifies this
      ensures Grown(old(log)) && evidence == old(evidence) && StillHeld(old(world), world)
      ensures NamespacesOf(old(world).objects) <= NamespacesOf(world.objects)
      ensures ViewOf(world.objects) == old(ViewOf(world.objects))[KeyOf(kind, ns) := f]
              || (err && ViewOf(world.objects) == old(ViewOf(world.objects)))
      ensures info == Told(old(info), err).(written := old(info).written + if err then 0 else 1)
    {
      Environment();
      SoundNow();
      var after;
      after, err := TryPut(world.objects, old(NamespacesOf(world.objects)), kind, ns, f);
      RecordWrite(kind, err, after);
    }

    /** `Delete`, where an absent object is no error.  A failed call may have
        taken effect. */
    method DeleteObject(kind: Kind, ns: string) returns (err: bool)
      requires Valid() && CleaningUp(world, info) && ManagedKind(kind)
      requires MayErase(ViewOf(world.objects), kind, ns)
      requires OnTrack(digest, info, ViewOf(world.objects) - {KeyOf(kind, ns)})
      modifies this
      ensures Grown(old(log)) && evidence == old(evidence) && StillHeld(old(world), world)
      ensures ViewOf(world.objects) == old(ViewOf(world.objects)) - {KeyOf(kind, ns)}
              || (err && ViewOf(world.objects) == old(ViewOf(world.objects)))
      ensures info == if err then Told(old(info), true).(cleanupFailed := true) else old(info)
    {
      Environment();
      SoundNow();
      var after;
      after, err := TryRemove(world.objects, kind, ns);
      RecordDelete(kind, err, after);
    }

    // -------------------------------------------------------------- deploy

    /** The pass has not read its configuration yet. */
    ghost predicate MayRead(ns: string)
      reads this
    {
      info.config.None? && info.snap.Some? && ns == TargetNamespace(info.snap.value.spec)
    }

    /** `Get` of the user's ConfigMap, where an absent one is no error. */
    method GetConfigMap(ns: string) returns (config: Option<Data>, err: bool)
      requires Valid() && MayRead(ns)
      modifies this
      ensures Grown(old(log)) && evidence == old(evidence)
      ensures StillHeld(old(world), world) && McpUntouched(old(world), world)
      ensures info == if err then Told(old(info), true) else old(info).(config := Some(config))
      ensures !err ==> config == ConfigAt(world.objects, ns) && Reads(log, |old(log)|, ns, config)
    {
      Environment();
      err := *;
      config := if err then None else ConfigAt(world.objects, ns);
      Quiet(if err then CallFailed else ReadConfig(config));
      assert !err ==> ReadAt(log, |log| - 1, ns, config);
    }

    /** `resolveConfig`: the user's ConfigMap and its fingerprint, if there is one. */
    method ResolveConfig(ns: string) returns (config: Option<Data>, hash: string, source: string, err: bool)
      requires Valid() && MayRead(ns)
      modifies this
      ensures Grown(old(log)) && evidence == old(evidence)
      ensures StillHeld(old(world), world) && McpUntouched(old(world), world)
      ensures info == if err then Told(old(info), true) else old(info).(config := Some(config))
      ensures !err ==> config == ConfigAt(world.objects, ns) && Reads(log, |old(log)|, ns, config)
      ensures !err ==> hash == HashOf(digest, config) && source == if config.Some? then "mcp" else ""
      ensures var namespace := info.snap.value.spec.namespace;
              var key := Key(ConfigMapKind, if namespace == "" then "observability" else namespace, "kube-state-metrics-config");
              !err ==> if config.Some? then key in world.objects && world.objects[key].fields == ConfigMapFields(config.value)
                       else key !in world.objects || !world.objects[key].fields.ConfigMapFields?
    {
      hash, source := "", "";
      config, err := GetConfigMap(ns);
      if config.Some? {
        hash := ComputeConfigMapHash(config.value, digest);
        source := "mcp";
      }
    }

    /** The plan is for the object this pass has fetched and the configuration it
        has read. */
    ghost predicate Follows(p: Plan)
      reads this
    {
      && info.snap.Some? && p.spec == info.snap.value.spec && p.digest == digest
      && (info.config.Some? ==> info.config == Some(p.config))
    }

    /** The first `i` writes of the plan have been made. */
    ghost predicate AtStep(p: Plan, i: nat)
      reads this
    {
      && Valid() && Deploying(world, info) && Follows(p) && info.written == i <= WRITES
      && ViewOf(world.objects) == Written(info.base, p, i) && (i > 0 ==> Ns(p) in NamespacesOf(world.objects))
    }

    /** Up to `n` writes of the plan have taken effect. */
    ghost predicate Reached(p: Plan, n: nat)
      reads this
    {
      n <= WRITES && ViewOf(world.objects) == Written(info.base, p, n)
    }

    /** The next write in order. */
    method WriteNext(kind: Kind, ns: string, f: Fields, ghost p: Plan, ghost i: nat) returns (err: bool, ghost n: nat)
      requires AtStep(p, i) && 0 < i < WRITES && WriteOrder()[i] == kind
      requires i >= EARLY_WRITES ==> info.config.Some?
      requires ns == Ns(p) && f == Want(p, kind)
      modifies this
      ensures Grown(old(log)) && evidence == old(evidence) && StillHeld(old(world), world)
      ensures info == Told(old(info), err).(written := info.written) && i <= n <= i + 1 && Reached(p, n)
      ensures !err ==> AtStep(p, i + 1) && n == i + 1
    {
      NextWrite(digest, info, NamespacesOf(world.objects), p, i);
      err := CreateOrUpdate(kind, ns, f);
      n := if ViewOf(world.objects) == Written(info.base, p, i + 1) then i + 1 else i;
    }

    /** The Namespace and the ServiceAccount. */
    method DeployIdentity(ns: string, account: Fields, ghost p: Plan) returns (err: bool, ghost n: nat)
      requires AtStep(p, 0) && ns == Ns(p) && account == Want(p, ServiceAccountKind)
      modifies this
      ensures Grown(old(log)) && evidence == old(evidence) && StillHeld(old(world), world)
      ensures info == Told(old(info), err).(written := info.written) && n <= 2 && Reached(p, n)
      ensures !err ==> AtStep(p, 2) && n == 2
    {
      err := CreateNamespace(ns);
      n := 0;
      if err {
        return;
      }
      err, n := WriteNext(ServiceAccountKind, ns, account, p, 1);
    }

    /** The ClusterRole and the ClusterRoleBinding. */
    method DeployRoles(ns: string, role: Fields, binding: Fields, ghost p: Plan) returns (err: bool, ghost n: nat)
      requires AtStep(p, 2) && ns == Ns(p) && role == Want(p, ClusterRoleKind)
      requires binding == Want(p, ClusterRoleBindingKind)
      modifies this
      ensures Grown(old(log)) && evidence == old(evidence) && StillHeld(old(world), world)
      ensures info == Told(old(info), err).(written := info.written) && 2 <= n <= 4 && Reached(p, n)
      ensures !err ==> AtStep(p, 4) && n == 4
    {
      err, n := WriteNext(ClusterRoleKind, ns, role, p, 2);
      if err {
        return;
      }
      err, n := WriteNext(ClusterRoleBindingKind, ns, binding, p, 3);
    }

    /** The four writes that come before the configuration is read. */
    method DeployAccess(spec: Spec, ghost p: Plan) returns (err: bool, ghost n: nat)
      requires AtStep(p, 0) && p.spec == spec
      modifies this
      ensures Grown(old(log)) && evidence == old(evidence) && StillHeld(old(world), world)
      ensures info == Told(old(info), err).(written := info.written) && n <= 4 && Reached(p, n)
      ensures !err ==> AtStep(p, 4) && n == 4
    {
      var ns := TargetNamespace(spec);
      var account, role, binding := MutateAccess(spec, p);
      err, n := DeployIdentity(ns, account, p);
      if err {
        return;
      }
      err, n := DeployRoles(ns, role, binding, p);
    }

    /** The Service and the PodDisruptionBudget. */
    method DeployExposure(spec: Spec, ghost p: Plan) returns (err: bool, ghost n: nat)
      requires AtStep(p, 5) && info.config.Some? && p.spec == spec
      modifies this
      ensures Grown(old(log)) && evidence == old(evidence) && StillHeld(old(world), world)
      ensures info == Told(old(info), err).(written := info.written) && 5 <= n && Reached(p, n)
      ensures !err ==> AtStep(p, WRITES) && n == WRITES
    {
      var ns := TargetNamespace(spec);
      var service, budget := BuildExposure(digest, spec, p.config);
      err, n := WriteNext(ServiceKind, ns, service, p, 5);
      if err {
        return;
      }
      err, n := WriteNext(DisruptionBudgetKind, ns, budget, p, 6);
    }

    /** The three writes that follow it. */
    method DeployWorkload(spec: Spec, config: Option<Data>, hash: string, ghost p: Plan)
      returns (err: bool, ghost n: nat)
      requires AtStep(p, EARLY_WRITES) && info.config.Some? && p == Plan(digest, spec, config)
      requires hash == HashOf(digest, config)
      modifies this
      ensures Grown(old(log)) && evidence == old(evidence) && StillHeld(old(world), world)
      ensures info == Told(old(info), err).(written := info.written) && 4 <= n && Reached(p, n)
      ensures !err ==> AtStep(p, WRITES) && n == WRITES
    {
      err, n := DeployPods(spec, config, hash, p);
      if !err {
        err, n := DeployExposure(spec, p);
      }
    }

    /** The Deployment. */
    method DeployPods(spec: Spec, config: Option<Data>, hash: string, ghost p: Plan) returns (err: bool, ghost n: nat)
      requires AtStep(p, EARLY_WRITES) && info.config.Some? && p == Plan(digest, spec, config)
      requires hash == HashOf(digest, config)
      modifies this
      ensures Grown(old(log)) && evidence == old(evidence) && StillHeld(old(world), world)
      ensures info == Told(old(info), err).(written := info.written) && 4 <= n && Reached(p, n)
      ensures !err ==> AtStep(p, 5)
    {
      var deployment := BuildDeployment(digest, spec, config, hash);
      err, n := WriteNext(DeploymentKind, TargetNamespace(spec), deployment, p, 4);
    }

    /** The final `Get` of the Deployment, whose counts are the cluster's own. */
    method ObserveDeployment() returns (ready: bool, err: bool)
      requires Valid() && info.snap.Some? && info.config.Some? && info.written == WRITES
      requires AllDesired(ViewOf(world.objects), Plan(digest, info.snap.value.spec, info.config.value))
      modifies this
      ensures Grown(old(log)) && old(evidence) <= evidence
      ensures info == if err then Told(old(info), true) else old(info).(ready := Some(ready))
      ensures StillHeld(old(world), world) && McpUntouched(old(world), world)
      ensures !err && ready ==> (info.snap.value.uid, info.snap.value.generation) in evidence
    {
      Environment();
      err := *;
      Note(err);
      if err {
        return false, true;
      }
      var readyReplicas: int := *;
      var replicas: int := *;
      RecordObserved(readyReplicas, replicas);
      ready := readyReplicas == replicas && replicas > 0;
    }

    method RecordObserved(ready: int, total: int)
      requires Valid() && info.snap.Some? && info.config.Some? && info.written == WRITES
      requires AllDesired(ViewOf(world.objects), Plan(digest, info.snap.value.spec, info.config.value))
      modifies this
      ensures Grown(old(log)) && old(evidence) <= evidence && world == old(world)
      ensures info == Learn(old(info), Observed(ready, total))
      ensures ready == total > 0 ==> (info.snap.value.uid, info.snap.value.generation) in evidence
    {
      SoundNow();
      ObserveRules(digest, world, info, evidence, ready, total);
      Record(Observed(ready, total), world);
    }

    /** The writes that depend on the configuration, and a look at the result. */
    method DeployAndObserve(ksm: Ksm, config: Option<Data>, ghost p: Plan)
      returns (ready: bool, err: bool, ghost n: nat)
      requires AtStep(p, EARLY_WRITES) && info.config == Some(config)
      requires p == Plan(digest, ksm.spec, config) && ksm.status.configHash == HashOf(digest, config)
      modifies this
      ensures Grown(old(log)) && old(evidence) <= evidence && StillHeld(old(world), world)
      ensures info == Told(old(info), err).(written := info.written, ready := info.ready) && 4 <= n && Reached(p, n)
      ensures !err ==> n == WRITES && Annotated(world.objects, Ns(p), AnnotationsFor(ksm.status.configHash))
      ensures !err ==> info.ready == Some(ready)
      ensures !err && ready ==> (info.snap.value.uid, info.snap.value.generation) in evidence
    {
      ready := false;
      err, n := DeployWorkload(ksm.spec, config, ksm.status.configHash, p);
      if err {
        return;
      }
      CompleteIsDesired(info.base, p);
      ready, err := ObserveDeployment();
      DesiredIsAnnotated(world.objects, p);
    }

    /** What a deploy of `ksm` has made since entry `since`: the first `n` writes of
        the plan `p`, and a status `k.status` that differs in the configuration.
        From the Deployment on, the plan has the stored configuration it read. */
    ghost predicate Made(ksm: Ksm, k: Ksm, p: Plan, n: nat, since: nat)
      reads this
    {
      && p.spec == ksm.spec && p.digest == digest && Reached(p, n)
      && k == ksm.(status := ksm.status.(configSource := k.status.configSource, configHash := k.status.configHash))
      && (n > EARLY_WRITES ==> info.config.Some?)
      && (info.config.Some? ==> info.config == Some(p.config) && Reads(log, since, Ns(p), p.config))
    }

    /** Reads the configuration, which completes the plan and goes into the status. */
    method ReadPlan(ksm: Ksm, ghost q: Plan) returns (k: Ksm, config: Option<Data>, err: bool, ghost p: Plan)
      requires AtStep(q, EARLY_WRITES) && info.config.None? && ksm.spec == q.spec
      modifies this
      ensures Grown(old(log)) && evidence == old(evidence) && StillHeld(old(world), world)
      ensures info == Told(old(info), err).(config := info.config) && Made(ksm, k, p, EARLY_WRITES, |old(log)|)
      ensures !err ==> AtStep(p, EARLY_WRITES) && p.config == config && info.config.Some?
      ensures !err ==> k.status.configHash == HashOf(digest, config)
                       && k.status.configSource == if config.Some? then "mcp" else ""
    {
      var hash, source;
      k, p := ksm, q;
      config, hash, source, err := ResolveConfig(TargetNamespace(ksm.spec));
      if !err {
        EarlyWritesIgnoreConfig(info.base, q, config, EARLY_WRITES);
        p := q.(config := config);
        k := k.(status := k.status.(configSource := source, configHash := hash));
      }
    }

    /** Reads the configuration and deploys what depends on it. */
    method DeployConfigured(ksm: Ksm, ghost q: Plan) returns (k: Ksm, ready: bool, err: bool, ghost p: Plan, ghost n: nat)
      requires AtStep(q, EARLY_WRITES) && info.config.None? && ksm.spec == q.spec
      modifies this
      ensures Grown(old(log)) && old(evidence) <= evidence && StillHeld(old(world), world)
      ensures info == Told(old(info), err).(written := info.written, config := info.config, ready := info.ready)
      ensures Made(ksm, k, p, n, |old(log)|)
      ensures !err ==> n == WRITES && PublishesConfig(digest, world, info, k.status) && info.ready == Some(ready)
      ensures !err && ready ==> (info.snap.value.uid, info.snap.value.generation) in evidence
    {
      var config;
      k, config, err, p := ReadPlan(ksm, q);
      ready, n := false, EARLY_WRITES;
      if !err {
        ghost var l := log;
        ready, err, n := DeployAndObserve(k, config, p);
        ReadsStays(l, log, |old(log)|, |old(log)|, Ns(p), config);
      }
    }

    /** Makes all writes for an object that has an image. */
    method DeployImage(ksm: Ksm) returns (k: Ksm, ready: bool, err: bool, ghost p: Plan, ghost n: nat)
      requires AtStep(Plan(digest, ksm.spec, None), 0) && info.config.None?
      modifies this
      ensures Grown(old(log)) && old(evidence) <= evidence && StillHeld(old(world), world)
      ensures info == Told(old(info), err).(written := info.written, config := info.config, ready := info.ready)
      ensures Made(ksm, k, p, n, |old(log)|)
      ensures !err ==> n == WRITES && PublishesConfig(digest, world, info, k.status) && info.ready == Some(ready)
      ensures !err && ready ==> (info.snap.value.uid, info.snap.value.generation) in evidence
    {
      k, ready, p := ksm, false, Plan(digest, ksm.spec, None);
      err, n := DeployAccess(ksm.spec, p);
      if !err {
        ghost var m := |log|;
        k, ready, err, p, n := DeployConfigured(ksm, p);
        if info.config.Some? { ReadsStays(log, log, m, |old(log)|, Ns(p), p.config); }
      }
    }

    /** `deployKubeStateMetrics`.  However it ends, the managed objects are the
        first `n` writes of the plan `p` over what was there before; without an
        error it is all of them. */
    method Deploy(ksm: Ksm) returns (k: Ksm, ready: bool, err: bool, ghost p: Plan, ghost n: nat)
      requires Valid() && Deploying(world, info) && info.written == 0 && info.config.None?
      requires ksm.spec == info.snap.value.spec && ViewOf(world.objects) == info.base
      modifies this
      ensures Grown(old(log)) && old(evidence) <= evidence && StillHeld(old(world), world)
      ensures info == old(info).(written := info.written, config := info.config, ready := info.ready, failed := info.failed)
      ensures (old(info).failed ==> info.failed) && (err ==> info.failed || ksm.spec.image == "")
      ensures ksm.spec.image == "" ==> err && n == 0
      ensures Made(ksm, k, p, n, |old(log)|)
      ensures !err ==> n == WRITES && PublishesConfig(digest, world, info, k.status) && info.ready == Some(ready)
      ensures !err && ready ==> (info.snap.value.uid, info.snap.value.generation) in evidence
      ensures var home := if ksm.spec.namespace == "" then "observability" else ksm.spec.namespace;
              && OnlyTouches(home, old(ViewOf(world.objects)), ViewOf(world.objects))
              && (!err ==> DeploymentKeys(home) <= world.objects.Keys)
    {
      if ksm.spec.image == "" {
        return ksm, false, true, Plan(digest, ksm.spec, None), 0;
      }
      k, ready, err, p, n := DeployImage(ksm);
      DeployStaysAtHome(old(ViewOf(world.objects)), p, n);
    }

    // -------------------------------------------------------------- delete

    /** `cleanupKubeStateMetrics`: stops at the first error. */
    method Cleanup(spec: Spec) returns (err: bool, ghost n: nat)
      requires Valid() && CleaningUp(world, info)
      requires spec == info.snap.value.spec && ViewOf(world.objects) == info.base
      modifies this
      ensures Grown(old(log)) && evidence == old(evidence) && StillHeld(old(world), world)
      ensures n <= DELETES && ViewOf(world.objects) == Erased(old(info).base, TargetNamespace(spec), n)
      ensures info == if err then Told(old(info), true).(cleanupFailed := true) else old(info)
      ensures !err ==> n == DELETES
      ensures var home := if spec.namespace == "" then "observability" else spec.namespace;
              && OnlyTouches(home, old(ViewOf(world.objects)), ViewOf(world.objects))
              && (!err ==> DeploymentKeys(home) !! world.objects.Keys)
    {
      var ns := TargetNamespace(spec);
      err, n := DeleteAll(ns);
      CleanupStaysAtHome(info.base, spec, n);
      if !err { ListedAreManaged(world.objects, if spec.namespace == "" then "observability" else spec.namespace); }
    }

    /** The loop over the six objects. */
    method DeleteAll(ns: string) returns (err: bool, ghost n: nat)
      requires Valid() && CleaningUp(world, info)
      requires ns == TargetNamespace(info.snap.value.spec) && ViewOf(world.objects) == info.base
      modifies this
      ensures Grown(old(log)) && evidence == old(evidence) && StillHeld(old(world), world)
      ensures n <= DELETES && ViewOf(world.objects) == Erased(old(info).base, ns, n)
      ensures info == if err then Told(old(info), true).(cleanupFailed := true) else old(info)
      ensures !err ==> n == DELETES
    {
      ghost var v0 := ViewOf(world.objects);
      var resources := DeleteOrder();
      n := 0;
      for i := 0 to DELETES
        invariant Grown(old(log)) && evidence == old(evidence) && StillHeld(old(world), world)
        invariant CleaningUp(world, info) && info == old(info)
        invariant n == i && ViewOf(world.objects) == Erased(v0, ns, i)
      {
        NextDelete(digest, info, ns, i);
        err := DeleteObject(resources[i], ns);
        n := if ViewOf(world.objects) == Erased(v0, ns, i + 1) then i + 1 else i;
        if err {
          return;
        }
      }
      err := false;
    }

    /** The answers are those that the log of this pass has. */
    ghost predicate Recorded(a: Answers)
      reads this
    {
      && info.access == Some(a.access) && (info.cluster <==> a.access.Ready?)
      && (a.access.Ready? ==> (a.cleanupErr <==> info.cleanupFailed))
      && (a.access.Ready? && a.cleanupErr ==> info.withdrawal.None?)
      && (!(a.access.Ready? && a.cleanupErr) ==> info.withdrawal == Some(a.withdrawal))
    }

    /** The object is held and this pass has done nothing on the control plane. */
    ghost predicate ReadyToClean(spec: Spec)
      reads this
    {
      && Valid() && Held(world) && info.snap.Some? && info.snap.value.deleting
      && !info.cluster && !info.cleanupFailed && !info.withdrawn && info.withdrawal.None?
      && spec == info.snap.value.spec && ViewOf(world.objects) == info.base
    }

    /** The part of a deletion that cleans up, if it gets access. */
    method CleanUp(spec: Spec) returns (setup: Setup, err: bool, ghost n: nat)
      requires ReadyToClean(spec)
      modifies this
      ensures Grown(old(log)) && Held(world) && n <= DELETES && (err ==> setup.Ready?)
      ensures (info.snap, info.base, info.access) == (old(info).snap, old(info).base, Some(setup))
      ensures !info.withdrawn && info.withdrawal.None?
      ensures (info.cluster <==> setup.Ready?) && (info.cleanupFailed <==> err) && (err ==> info.failed)
      ensures ViewOf(world.objects) == if setup.Ready? then Erased(info.base, TargetNamespace(spec), n) else info.base
      ensures setup.Ready? && !err ==> n == DELETES
    {
      err, n := false, 0;
      setup := SetupClusterAccess();
      if setup.Ready? {
        err, n := Cleanup(spec);
      }
    }

    /** The part of a deletion that withdraws access and drops the finalizer. */
    method Release(ksm: Ksm) returns (res: Result, reply: Reply, err: bool)
      requires Valid() && Held(world) && MayDrop(world, info.(withdrawn := true)) && !info.withdrawn
      modifies this
      ensures Grown(old(log)) && McpUntouched(old(world), world)
      ensures (info.snap, info.cluster, info.cleanupFailed) == (old(info).snap, old(info).cluster, old(info).cleanupFailed)
      ensures info.access == old(info).access && info.withdrawal == Some(reply) && (res.err ==> info.failed)
      ensures reply.Refused? ==> Held(world) && res == Result(0, true)
      ensures reply.Replied? && reply.after > 0 ==> Held(world) && res == Result(reply.after, false)
      ensures reply.Replied? && reply.after <= 0 ==> res == Result(0, err) && (!err ==> !Held(world))
    {
      err := false;
      reply := AskForWithdrawal();
      if reply.Refused? {
        return Result(0, true), reply, err;
      }
      if reply.after > 0 {
        return Result(reply.after, false), reply, err;
      }
      err := RemoveFinalizer(ksm);
      return Result(0, err), reply, err;
    }

    /** Cleans up, withdraws access and drops the finalizer, as DeletePass says. */
    method FinishDelete(ksm: Ksm) returns (res: Result, ghost a: Answers)
      requires ReadyToClean(ksm.spec)
      modifies this
      ensures Grown(old(log)) && res.after >= 0 && Plausible(a) && Recorded(a)
      ensures info.snap == old(info).snap && (res.err ==> info.failed)
      ensures (ViewOf(world.objects), res, !Held(world)) == DeletePass(old(info).base, TargetNamespace(ksm.spec), a)
    {
      var setup, err;
      ghost var n;
      setup, err, n := CleanUp(ksm.spec);
      a := Answers(setup, n, err || !setup.Ready?, Refused, true, false);
      if err {
        return Result(0, true), a;
      }
      CleanupLeavesNone(info.base, TargetNamespace(ksm.spec));
      var reply;
      res, reply, err := Release(ksm);
      a := a.(withdrawal := reply, updateErr := res.err || res.after > 0, dropped := !Held(world));
    }

    /** `handleDelete` of an object that carries our finalizer: it does what
        DeletePass says of the answers it got. */
    method HandleDelete(fetched: Ksm) returns (res: Result, ghost a: Answers)
      requires Valid() && info == Started(world)
      requires fetched.deleting && world.obj == Some(fetched)
      modifies this
      ensures Grown(old(log)) && res.after >= 0 && Plausible(a)
      ensures info.snap == Some(fetched) && (res.err ==> info.failed)
      ensures FINALIZER !in fetched.finalizers ==> res == Result(0, false) && ViewOf(world.objects) == old(info).base
      ensures FINALIZER in fetched.finalizers ==> Recorded(a) && TriesStatus(log, |old(log)|)
      ensures FINALIZER in fetched.finalizers ==>
                (ViewOf(world.objects), res, !Held(world)) == DeletePass(old(info).base, TargetNamespace(fetched.spec), a)
    {
      if FINALIZER !in fetched.finalizers {
        return Result(0, false), Answers(AccessError, 0, true, Refused, true, false);
      }
      var now: int := *;
      var ksm := fetched.(status := S.Terminating(fetched.status, fetched.generation, now));
      S.HelpersSay(fetched.status, fetched.generation, "", "", now);
      ksm := UpdateStatus(ksm);
      ghost var l := log;
      res, a := FinishDelete(ksm);
      TriesStays(l, log, |old(log)|, |old(log)|);
    }

    // -------------------------------------------------------------- reconcile

    /** The part of a pass that follows the deploy: publish what it found. */
    method Publish(ksm: Ksm, snapshot: S.Status, ready: bool) returns (err: bool)
      requires Valid() && GoesOn(world, info, ksm.status, snapshot) && ksm.generation == info.snap.value.generation
      requires PublishesConfig(digest, world, info, ksm.status) && info.ready == Some(ready)
      requires ready ==> (info.snap.value.uid, info.snap.value.generation) in evidence
      modifies this
      ensures Grown(old(log)) && McpUntouched(old(world), world) && Held(world)
      ensures info == Told(old(info), err) && TriesStatus(log, |old(log)|)
      ensures !err ==> var status := world.obj.value.status;
                       && SaysWhatItSaw(status, ksm.generation, ready)
                       && S.Others(status.conditions, "Ready") == S.Others(snapshot.conditions, "Ready")
                       && (status.configHash, status.configSource) == (ksm.status.configHash, ksm.status.configSource)
    {
      var now: int := *;
      var next := Outcome(ksm.status, ksm.generation, ready, now);
      OutcomeSays(snapshot, ksm.status, ksm.generation, ready, now);
      err := PatchStatus(next, snapshot, Published);
    }

    /** Reports a failure in the status; a failing patch is ignored. */
    method ReportError(ksm: Ksm, snapshot: S.Status, reason: string)
      requires Valid() && GoesOn(world, info, ksm.status, snapshot) && ksm.generation == info.snap.value.generation
      requires !info.snap.value.deleting && (reason == "ClusterAccessError" || reason == "DeploymentError")
      modifies this
      ensures Grown(old(log)) && McpUntouched(old(world), world) && Notes(old(info), info)
      ensures TriesStatus(log, |old(log)|)
      ensures Held(world) && (info.failed || S.Says(world.obj.value.status, ksm.generation, false, reason, "Progressing"))
    {
      var now: int := *;
      var message: string := *;
      var next := S.Progressing(ksm.status, ksm.generation, reason, message, now);
      S.HelpersSay(ksm.status, ksm.generation, reason, message, now);
      S.ReportsInTurn(snapshot, ksm.status, next, ksm.generation);
      var _ := PatchStatus(next, snapshot, StatusWritten);
    }

    /** An error-free deploy pass wrote everything, published what it saw, for the
        generation it worked on and the configuration it deployed, and polls faster
        until the pods are ready. */
    ghost predicate CompleteAndPublished(pass: Pass, res: Result, generation: nat)
      reads this
    {
      && pass.Deployed? && pass.n == WRITES && world.obj.Some? && var status := world.obj.value.status;
      && status.observed == generation && status.phase in {S.READY, S.PROGRESSING}
      && status.configHash == HashOf(digest, pass.plan.config)
      && status.configSource == (if pass.plan.config.Some? then "mcp" else "")
      && info.ready == Some(status.phase == S.READY)
      && res.after == if status.phase == S.READY then 60 else 10
    }

    /** What the result of a pass over `seen` means.  An error has been reported by
        a call, or there is no image to deploy; to come back is what a complete
        deploy asks for, or the access library did; and an end is that of an object
        being deleted which our finalizer does not hold any more. */
    ghost predicate Means(res: Result, seen: Ksm, pass: Pass)
      reads this
    {
      if res.err then info.failed || (!seen.deleting && seen.spec.image == "")
      else if res.after > 0 then
        if seen.deleting then info.withdrawal == Some(Replied(res.after))
        else CompleteAndPublished(pass, res, seen.generation) || info.access == Some(Wait(res.after))
      else res.after == 0 && seen.deleting && (FINALIZER !in seen.finalizers || !Held(world))
    }

    /** A deploy that got to the Deployment has the stored configuration it read. */
    ghost predicate DeploysWhatIsStored(n: nat, pass: Pass)
      reads this
    {
      pass.Deployed? && pass.n > EARLY_WRITES ==> Reads(log, n, Ns(pass.plan), pass.plan.config)
    }

    /** `Reconcile`.  Without an object it has found none, or could not look.  Else
        it is a pass over the object it fetched: its result has a reason, and on
        the control plane it is a deploy or a cleanup that got somewhere. */
    method Reconcile() returns (res: Result, seen: Option<Ksm>, ghost pass: Pass)
      requires Valid()
      modifies this
      ensures Grown(old(log)) && res.after >= 0
      ensures seen.None? && !res.err ==> res.after == 0 && world.obj.None?
      ensures seen.None? && res.err ==> |log| > |old(log)| && log[|log| - 1].act.CallFailed?
      ensures seen.Some? ==> Fetches(log, |old(log)|, seen.value) && info.snap == seen && Means(res, seen.value, pass)
      ensures Legal(pass) && ViewOf(world.objects) == After(old(ViewOf(world.objects)), pass)
      ensures seen.Some? ==> Serves(pass, seen.value.spec) && DeploysWhatIsStored(|old(log)|, pass)
    {
      var err;
      seen, err := Get();
      pass := Cleaned(if seen.Some? then TargetNamespace(seen.value.spec) else "", 0);
      if err || seen.None? {
        return Result(0, err), None, pass;
      }
      var ksm := seen.value;
      if ksm.deleting {
        res, pass := ReconcileDeleted(ksm);
        return res, seen, pass;
      }
      res, pass := ReconcileLive(ksm);
    }

    /** The rest of a pass over a live object: makes sure of the finalizer first. */
    method ReconcileLive(fetched: Ksm) returns (res: Result, ghost pass: Pass)
      requires Valid() && info == Started(world)
      requires !fetched.deleting && world.obj == Some(fetched)
      modifies this
      ensures Grown(old(log)) && res.after >= 0 && info.snap == Some(fetched)
      ensures Means(res, fetched, pass) && (!res.err ==> res.after > 0)
      ensures Legal(pass) && ViewOf(world.objects) == After(old(ViewOf(world.objects)), pass)
      ensures Serves(pass, fetched.spec) && DeploysWhatIsStored(|old(log)|, pass)
    {
      var ksm := fetched;
      if FINALIZER !in ksm.finalizers {
        var err;
        ksm, err := AddFinalizer(ksm);
        if err {
          return Result(0, true), Cleaned(TargetNamespace(fetched.spec), 0);
        }
      }
      ghost var l := |log|;
      res, pass := ReconcileHeld(ksm);
      if pass.Deployed? && pass.n > EARLY_WRITES { ReadsStays(log, log, l, |old(log)|, Ns(pass.plan), pass.plan.config); }
    }

    /** The rest of a pass over an object that is being deleted. */
    method ReconcileDeleted(fetched: Ksm) returns (res: Result, ghost pass: Pass)
      requires Valid() && info == Started(world)
      requires fetched.deleting && world.obj == Some(fetched)
      modifies this
      ensures Grown(old(log)) && res.after >= 0
      ensures info.snap == Some(fetched) && Means(res, fetched, pass)
      ensures Legal(pass) && ViewOf(world.objects) == After(old(ViewOf(world.objects)), pass)
      ensures Serves(pass, fetched.spec) && pass.Cleaned?
    {
      ghost var a;
      res, a := HandleDelete(fetched);
      ghost var ns := TargetNamespace(fetched.spec);
      DeletePassIsAPass(old(ViewOf(world.objects)), ns, a);
      pass := if FINALIZER in fetched.finalizers then PassOf(ns, a) else Cleaned(ns, 0);
    }

    /** A pass that has fetched `snap`, holds it as `k` and has done nothing else. */
    ghost predicate JustHeld(k: Ksm, snap: Ksm)
      reads this
    {
      && Valid() && Held(world) && world.obj == Some(k) && !snap.deleting
      && info == NO_PASS.(snap := Some(snap), base := ViewOf(world.objects))
      && k == snap.(finalizers := k.finalizers, version := k.version)
    }

    /** The rest of a pass over an object whose finalizer is persisted. */
    method ReconcileHeld(fetched: Ksm) returns (res: Result, ghost pass: Pass)
      requires info.snap.Some? && JustHeld(fetched, info.snap.value)
      modifies this
      ensures Grown(old(log)) && res.after >= 0 && info.snap == old(info).snap
      ensures Means(res, old(info).snap.value, pass) && (!res.err ==> res.after > 0)
      ensures res.err ==> TriesStatus(log, |old(log)|)
      ensures Legal(pass) && ViewOf(world.objects) == After(old(ViewOf(world.objects)), pass)
      ensures Serves(pass, fetched.spec) && DeploysWhatIsStored(|old(log)|, pass)
    {
      pass := Cleaned(TargetNamespace(fetched.spec), 0);
      var snapshot := fetched.status;
      var now: int := *;
      var ksm := fetched.(status := S.Progressing(fetched.status, fetched.generation,
                                                  "Reconciling", "Reconcile in progress", now));
      S.HelpersSay(fetched.status, fetched.generation, "Reconciling", "Reconcile in progress", now);
      var setup := SetupClusterAccess();
      if setup.AccessError? {
        ReportError(ksm, snapshot, "ClusterAccessError");
        return Result(0, true), pass;
      }
      if setup.Wait? {
        return Result(setup.after, false), pass;
      }
      ghost var m := |log|;
      res, pass := DeployAndPublish(ksm, snapshot);
      if res.err { TriesStays(log, log, m, |old(log)|); }
      if pass.n > EARLY_WRITES { ReadsStays(log, log, m, |old(log)|, Ns(pass.plan), pass.plan.config); }
    }

    /** Deploys and reports what came of it. */
    method DeployAndPublish(fetched: Ksm, snapshot: S.Status) returns (res: Result, ghost pass: Pass)
      requires Valid() && Deploying(world, info) && info.written == 0 && info.config.None?
      requires (fetched.spec, fetched.generation) == (info.snap.value.spec, info.snap.value.generation)
      requires GoesOn(world, info, fetched.status, snapshot) && ViewOf(world.objects) == info.base
      modifies this
      ensures Grown(old(log)) && res.after >= 0 && info.snap == old(info).snap
      ensures Means(res, old(info).snap.value, pass) && (!res.err ==> res.after > 0)
      ensures res.err ==> TriesStatus(log, |old(log)|)
      ensures Legal(pass) && ViewOf(world.objects) == After(old(ViewOf(world.objects)), pass)
      ensures pass.Deployed? && Serves(pass, fetched.spec) && DeploysWhatIsStored(|old(log)|, pass)
    {
      var ksm, ready, err;
      ghost var p, n;
      ksm, ready, err, p, n := DeployHeld(fetched, snapshot);
      ghost var l, m := log, |log|;
      pass := Deployed(p, n);
      res := Conclude(ksm, snapshot, ready, err, pass);
      if res.err { TriesStays(log, log, m, |old(log)|); }
      if n > EARLY_WRITES { ReadsStays(l, log, |old(log)|, |old(log)|, Ns(p), p.config); }
    }

    /** The deploy, and what its report goes on from. */
    method DeployHeld(fetched: Ksm, snapshot: S.Status)
      returns (ksm: Ksm, ready: bool, err: bool, ghost p: Plan, ghost n: nat)
      requires Valid() && Deploying(world, info) && info.written == 0 && info.config.None?
      requires (fetched.spec, fetched.generation) == (info.snap.value.spec, info.snap.value.generation)
      requires GoesOn(world, info, fetched.status, snapshot) && ViewOf(world.objects) == info.base
      modifies this
      ensures Grown(old(log)) && (info.snap, info.base) == (old(info).snap, old(info).base)
      ensures err ==> info.failed || fetched.spec.image == ""
      ensures GoesOn(world, info, ksm.status, snapshot) && ksm.generation == fetched.generation
      ensures Made(fetched, ksm, p, n, |old(log)|)
      ensures !err ==> n == WRITES && PublishesConfig(digest, world, info, ksm.status) && info.ready == Some(ready)
      ensures !err && ready ==> (info.snap.value.uid, info.snap.value.generation) in evidence
    {
      ksm, ready, err, p, n := Deploy(fetched);
      DeployGoesOn(old(world), old(info), fetched.status, snapshot, world, info, ksm.status.configSource, ksm.status.configHash);
    }

    /** Reports what came of a deploy. */
    method Conclude(ksm: Ksm, snapshot: S.Status, ready: bool, err: bool, ghost pass: Pass) returns (res: Result)
      requires Valid() && GoesOn(world, info, ksm.status, snapshot) && !info.snap.value.deleting
      requires ksm.generation == info.snap.value.generation
      requires !err ==> PublishesConfig(digest, world, info, ksm.status) && info.ready == Some(ready)
      requires !err ==> pass.Deployed? && pass.n == WRITES && info.config == Some(pass.plan.config)
      requires !err && ready ==> (info.snap.value.uid, info.snap.value.generation) in evidence
      modifies this
      ensures Grown(old(log)) && McpUntouched(old(world), world) && Notes(old(info), info)
      ensures res.err ==> TriesStatus(log, |old(log)|)
      ensures err ==> res == Result(0, true)
      ensures !err && res.err ==> res.after == 0 && info.failed
      ensures !res.err ==> CompleteAndPublished(pass, res, ksm.generation)
    {
      if err {
        ReportError(ksm, snapshot, "DeploymentError");
        return Result(0, true);
      }
      var failed := Publish(ksm, snapshot, ready);
      return if failed then Result(0, true) else Result(if ready then 60 else 10, false);
    }

    // -------------------------------------------------------------- all runs

    /** The process dies after the first `n` entries: what would have followed has
        not happened, and nothing but the stored state is left. */
    method Crash(n: nat)
      requires Valid() && 0 < n <= |log|
      modifies this
      ensures Valid() && log == old(log)[..n]
    {
      LawfulPrefix(digest, log, n);
      log := log[..n];
      world := log[n - 1].world;
      info := InfoOf(log);
      evidence := EvidenceOf(log);
    }

    /** Any number of passes, each of which may be cut at any point, with anything
        happening elsewhere in between, keeps the log lawful. */
    method Run(passes: nat)
      requires Valid()
      modifies this
      ensures Grown(old(log))
    {
      for i := 0 to passes
        invariant Grown(old(log))
      {
        var started := |log|;
        var _, _, _ := Reconcile();
        var cut: nat := *;
        if started <= cut <= |log| {
          Crash(cut);
        }
      }
    }
  }
}
