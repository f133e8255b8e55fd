/** What a run of the concrete controller looks like from outside: the log of its
    effective calls and of everybody else's acts, and the rules it obeys. */
module KsmLog {
  import opened Common
  import opened Fingerprint
  import opened Mcp
  import opened McpHistory
  import S = StatusModel

  const FINALIZER := "ksm.services.openmcp.cloud/finalizer"

  /** The KubeStateMetrics object as the onboarding API server stores it. */
  datatype Ksm = Ksm(uid: nat, version: nat, generation: nat, deleting: bool,
                     finalizers: set<string>, spec: Spec, status: S.Status)

  datatype World = World(obj: Option<Ksm>, objects: Objects, clock: nat)

  predicate Held(w: World) { w.obj.Some? && FINALIZER in w.obj.value.finalizers }

  predicate Current(w: World, k: Ksm) { w.obj.Some? && w.obj.value.version == k.version }

  function NamespacesOf(objects: Objects): set<string> {
    set k | k in objects && k.kind.NamespaceKind? && k == KeyOf(NamespaceKind, k.name) :: k.name
  }

  /** Everything that is neither a managed object nor a namespace, the user's
      ConfigMaps among it. */
  function Unmanaged(objects: Objects): Objects {
    map k | k in objects && !IsManaged(k) && !k.kind.NamespaceKind? :: objects[k]
  }

  function ConfigAt(objects: Objects, ns: string): Option<Data> {
    var k := Key(ConfigMapKind, ns, CONFIG_MAP);
    if k in objects && objects[k].fields.ConfigMapFields? then Some(objects[k].fields.data) else None
  }

  // ---------------------------------------------------------------- everybody else

  /** Users create, edit and delete the object; only the controller takes its
      finalizer away or writes the status. */
  predicate UserActs(w: World, v: World) {
    && v.clock == w.clock + 1
    && match (w.obj, v.obj)
       case (None, Some(y)) => !y.deleting && y.status == S.EMPTY && y.uid == y.version == v.clock
       case (Some(x), None) => FINALIZER !in x.finalizers
       case (Some(x), Some(y)) =>
         && y.uid == x.uid && y.version == v.clock && y.status == x.status
         && (x.deleting ==> y.deleting && y.finalizers <= x.finalizers)
         && (FINALIZER in x.finalizers ==> FINALIZER in y.finalizers)
         && x.generation <= y.generation && (y.spec != x.spec ==> x.generation < y.generation)
       case _ => true
  }

  /** On the control plane others add namespaces, write unmanaged objects and set
      fields the controller does not manage. */
  predicate ElsewhereActs(w: World, v: World) {
    && ((v.obj == w.obj && v.clock == w.clock) || UserActs(w, v))
    && ViewOf(v.objects) == ViewOf(w.objects)
    && NamespacesOf(w.objects) <= NamespacesOf(v.objects)
  }

  // ---------------------------------------------------------------- the log

  /** What a call of the access library returned: an error, or a result that asks
      to come back after a positive time or else is final. */
  datatype Reply = Refused | Replied(after: int)

  /** What asking for access to the control plane comes to. */
  datatype Setup = Ready | Wait(after: int) | AccessError

  datatype Act =
    | Elsewhere
    | PassStart                                    // Get has returned the object
    | CallFailed                                   // a call of the pass has reported an error
    | FinalizerAdded
    | StatusWritten
    | StatusFailed                                 // a status write has reported an error
    | AccessReplied(reply: Reply)                  // the library's Reconcile
    | ClusterRead(ok: bool)                        // the library's MCPCluster
    | Wrote(kind: Kind)
    | WriteFailed(kind: Kind)                      // with or without effect
    | ReadConfig(config: Option<Data>)
    | Observed(ready: int, total: int)             // status of the Deployment
    | Published                                    // status after an error-free deploy
    | Deleted(kind: Kind)
    | DeleteFailed(kind: Kind)                     // with or without effect
    | WithdrawalReplied(reply: Reply)              // the library's ReconcileDelete
    | FinalizerRemoved

  /** An act and the world after it. */
  datatype Entry = Entry(act: Act, world: World)

  /** What the current pass has done so far; `base` is what it found. */
  datatype Info = Info(
    snap: Option<Ksm>, base: View, granted: bool, access: Option<Setup>, cluster: bool, written: nat,
    config: Option<Option<Data>>, ready: Option<bool>, cleanupFailed: bool, withdrawal: Option<Reply>,
    withdrawn: bool, failed: bool)

  const NO_PASS := Info(None, map[], false, None, false, 0, None, None, false, None, false, false)

  /** A pass that has only just fetched the object. */
  function Started(w: World): Info { NO_PASS.(snap := w.obj, base := ViewOf(w.objects)) }

  predicate IsFailure(act: Act) {
    || act.CallFailed? || act.StatusFailed? || act.WriteFailed? || act.DeleteFailed?
    || act == AccessReplied(Refused) || act == WithdrawalReplied(Refused)
  }

  predicate IsGrant(act: Act) { act.AccessReplied? && act.reply.Replied? && act.reply.after <= 0 }

  predicate IsWithdrawal(act: Act) { act.WithdrawalReplied? && act.reply.Replied? && act.reply.after <= 0 }

  /** What an act settles about access, if anything. */
  function AccessFrom(act: Act): Option<Setup> {
    match act
    case AccessReplied(Refused) => Some(AccessError)
    case AccessReplied(Replied(after)) => if after > 0 then Some(Wait(after)) else None
    case ClusterRead(ok) => Some(if ok then Ready else Wait(30))
    case _ => None
  }

  function Advance(i: Info, e: Entry): Info {
    if e.act.PassStart? then Started(e.world)
    else i.(granted := i.granted || IsGrant(e.act),
            access := if AccessFrom(e.act).Some? then AccessFrom(e.act) else i.access,
            cluster := i.cluster || e.act == ClusterRead(true),
            written := i.written + if IsNextWrite(i, e.act) then 1 else 0,
            config := if e.act.ReadConfig? then Some(e.act.config) else i.config,
            ready := if e.act.Observed? then Some(SawReady(e)) else i.ready,
            cleanupFailed := i.cleanupFailed || e.act.DeleteFailed?,
            withdrawal := if e.act.WithdrawalReplied? then Some(e.act.reply) else i.withdrawal,
            withdrawn := i.withdrawn || IsWithdrawal(e.act),
            failed := i.failed || IsFailure(e.act))
  }

  predicate IsNextWrite(i: Info, act: Act) {
    act.Wrote? && i.written < WRITES && act.kind == WriteOrder()[i.written]
  }

  /** The pass information is a fold over the log, so it forgets nothing but what
      happened before the last PassStart. */
  function InfoOf(log: seq<Entry>): Info {
    if log == [] then NO_PASS else Advance(InfoOf(log[..|log| - 1]), log[|log| - 1])
  }

  predicate SawReady(e: Entry) { e.act.Observed? && e.act.ready == e.act.total && e.act.total > 0 }

  /** Object identity and generation of every pass that ever saw its Deployment
      ready, and of a Ready status that was stored before. */
  type Evidence = set<(nat, int)>

  function Gather(ev: Evidence, i: Info, e: Entry): Evidence {
    if SawReady(e) && i.snap.Some? then ev + {(i.snap.value.uid, i.snap.value.generation)} else ev
  }

  predicate SaysReady(w: World) { w.obj.Some? && w.obj.value.status.phase == S.READY }

  /** What the stored status claims to have been ready. */
  function Claim(w: World): (nat, int)
    requires w.obj.Some?
  {
    (w.obj.value.uid, w.obj.value.status.observed)
  }

  function Inherited(w: World): Evidence { if SaysReady(w) then {Claim(w)} else {} }

  function EvidenceOf(log: seq<Entry>): Evidence {
    if log == [] then {}
    else if |log| == 1 then Inherited(log[0].world)
    else Gather(EvidenceOf(log[..|log| - 1]), InfoOf(log), log[|log| - 1])
  }

  // ---------------------------------------------------------------- the rules

  predicate AllAbsent(v: View, ns: string) { forall k :: k in v ==> !Belongs(k, ns) }

  ghost predicate AllDesired(v: View, p: Plan) {
    forall kind :: ManagedKind(kind) ==> KeyOf(kind, Ns(p)) in v && v[KeyOf(kind, Ns(p))] == Want(p, kind)
  }

  /** Versions identify contents and uids objects: an object at the fetched version
      is unchanged, and one with the fetched uid is no older. */
  predicate VersionsTell(w: World, i: Info) {
    && (w.obj.Some? ==> w.obj.value.version <= w.clock && w.obj.value.uid <= w.clock)
    && (i.snap.Some? ==> i.snap.value.version <= w.clock && i.snap.value.uid <= w.clock)
    && (i.snap.Some? && w.obj.Some? ==>
          && (w.obj.value.version == i.snap.value.version ==> w.obj.value == i.snap.value)
          && (w.obj.value.uid == i.snap.value.uid ==> i.snap.value.generation <= w.obj.value.generation))
  }

  /** Writes belong to passes that fetched a live object while the finalizer is
      persisted; deletes to passes that fetched an object being deleted. */
  predicate WritesAreCovered(e: Entry, i: Info) {
    && (e.act.Wrote? || e.act.WriteFailed? ==>
          Held(e.world) && i.cluster && i.snap.Some? && !i.snap.value.deleting)
    && (e.act.Deleted? || e.act.DeleteFailed? ==>
          Held(e.world) && i.cluster && i.snap.Some? && i.snap.value.deleting)
  }

  /** Our finalizer goes by one act only, after the pass has asked for access and
      withdrawn it, never after a cleanup error and, if the pass had reached the
      cluster, not before all six managed objects of the target namespace are
      absent. */
  predicate FinalizerDiscipline(before: World, e: Entry, i: Info) {
    && (Held(before) && !Held(e.world) ==> e.act.FinalizerRemoved?)
    && (e.act.FinalizerRemoved? ==>
          && i.access.Some? && i.withdrawn && !i.cleanupFailed && i.snap.Some?
          && (i.cluster ==> AllAbsent(ViewOf(e.world.objects), TargetNamespace(i.snap.value.spec))))
  }

  /** A cluster is only read after the library has granted access. */
  predicate ClustersAreGranted(e: Entry, i: Info) { e.act.ClusterRead? ==> i.granted }

  /** Whatever the controller does to the object leaves it the same object with the
      same spec and the same finalizers of others; it goes away only when it is being
      deleted and nobody else holds it, and then it does. */
  predicate KeepsTheObject(before: World, e: Entry) {
    !e.act.Elsewhere? ==>
      match (before.obj, e.world.obj)
      case (Some(x), Some(y)) =>
        && (y.uid, y.generation, y.deleting, y.spec) == (x.uid, x.generation, x.deleting, x.spec)
        && y.finalizers - {FINALIZER} == x.finalizers - {FINALIZER}
        && (e.act.FinalizerRemoved? && y.deleting ==> y.finalizers != {})
      case (Some(x), None) => x.deleting && x.finalizers <= {FINALIZER}
      case (None, y) => y.None?
  }

  /** The status of an object stays the coherent story it was, and keeps the
      conditions of other kinds; a new object has none. */
  ghost predicate KeepsTheStory(before: World, e: Entry) {
    e.world.obj.Some? ==>
      var y := e.world.obj.value;
      if before.obj.None? then y.status == S.EMPTY
      else
        var x := before.obj.value;
        && y.uid == x.uid
        && S.Others(y.status.conditions, S.READY) == S.Others(x.status.conditions, S.READY)
        && (S.Coherent(x.status, x.generation) ==> S.Coherent(y.status, y.generation))
  }

  /** What a pass stores in the status: after an error-free deploy the readiness it
      saw, else why it failed or that it terminates. */
  predicate ReportsItsPass(e: Entry, i: Info) {
    && (e.act.Published? ==>
          && i.snap.Some? && i.ready.Some? && e.world.obj.Some?
          && SaysWhatItSaw(e.world.obj.value.status, i.snap.value.generation, i.ready.value))
    && (e.act.StatusWritten? ==>
          i.snap.Some? && e.world.obj.Some? && SaysWhy(e.world.obj.value.status, i.snap.value))
  }

  predicate SaysWhatItSaw(status: S.Status, generation: int, ready: bool) {
    if ready then
      S.Says(status, generation, true, "ReconcileSuccess", "Ready")
    else
      S.Says(status, generation, false, "WaitingForPods", "Progressing")
  }

  /** A status for a pass that deletes or has failed. */
  predicate SaysWhy(status: S.Status, snap: Ksm) {
    if snap.deleting then
      S.Says(status, snap.generation, false, "Terminating", "Terminating")
    else
      || S.Says(status, snap.generation, false, "ClusterAccessError", "Progressing")
      || S.Says(status, snap.generation, false, "DeploymentError", "Progressing")
  }

  /** The controller keeps to what is its own in the object. */
  ghost predicate Tidy(before: World, e: Entry, i: Info) {
    ClustersAreGranted(e, i) && KeepsTheObject(before, e) && KeepsTheStory(before, e) && ReportsItsPass(e, i)
  }

  /** A stored Ready status was earned by a pass over that very generation, or
      was there from the start. */
  predicate ReadyIsEarned(w: World, ev: Evidence) { SaysReady(w) ==> Claim(w) in ev }

  /** What holds of the world at every point, whatever has just happened. */
  ghost predicate Sound(w: World, i: Info, ev: Evidence) {
    NoDangling(ViewOf(w.objects), NamespacesOf(w.objects)) && VersionsTell(w, i) && ReadyIsEarned(w, ev)
  }

  /** Readiness is looked at only after every write of the pass, which left all
      managed objects as the fetched spec and the read configuration want them. */
  ghost predicate ObservesCompleteDeploys(digest: string -> string, e: Entry, i: Info) {
    e.act.Observed? ==>
      && i.snap.Some? && i.config.Some? && i.written == WRITES
      && AllDesired(ViewOf(e.world.objects), Plan(digest, i.snap.value.spec, i.config.value))
  }

  /** What a pass reads is the configuration stored in its target namespace. */
  predicate ReadsWhatIsStored(e: Entry, i: Info) {
    e.act.ReadConfig? ==> i.snap.Some? && e.act.config == ConfigAt(e.world.objects, TargetNamespace(i.snap.value.spec))
  }

  /** The stored status, the annotation of the pods and the fingerprint of a
      configuration agree. */
  ghost predicate Agrees(digest: string -> string, w: World, ns: string, config: Option<Data>) {
    && w.obj.Some? && var status, key := w.obj.value.status, KeyOf(DeploymentKind, ns);
    && status.configHash == HashOf(digest, config)
    && status.configSource == (if config.Some? then "mcp" else "")
    && key in w.objects && w.objects[key].fields.DeploymentFields?
    && w.objects[key].fields.template.annotations == AnnotationsFor(status.configHash)
  }

  /** What an error-free pass publishes about its configuration is what it read
      and what it annotated the pods with. */
  ghost predicate ConfigurationAgrees(digest: string -> string, e: Entry, i: Info) {
    e.act.Published? ==>
      && Held(e.world) && i.snap.Some? && i.config.Some?
      && Agrees(digest, e.world, TargetNamespace(i.snap.value.spec), i.config.value)
  }

  /** The pass is about the target namespace or the whole of this spec. */
  predicate Serves(pass: Pass, spec: Spec) {
    match pass
    case Deployed(p, _) => p.spec == spec
    case Cleaned(ns, _) => ns == TargetNamespace(spec)
  }

  /** The managed objects are what `pass`, a deploy or cleanup for the fetched
      object that got as far as it got, makes of what it found.  A deploy that has
      reached the Deployment has the configuration that was read. */
  ghost predicate Explains(digest: string -> string, i: Info, v: View, pass: Pass)
    requires i.snap.Some?
  {
    && Legal(pass) && Serves(pass, i.snap.value.spec)
    && (pass.Deployed? ==> pass.plan.digest == digest)
    && (pass.Deployed? && pass.n > EARLY_WRITES ==> i.config == Some(pass.plan.config))
    && v == After(i.base, pass)
  }

  ghost predicate OnTrack(digest: string -> string, i: Info, v: View) {
    i.snap.Some? ==> exists pass :: Explains(digest, i, v, pass)
  }

  lemma StartIsOnTrack(digest: string -> string, w: World)
    ensures OnTrack(digest, Started(w), ViewOf(w.objects))
  {
    if w.obj.Some? {
      assert Explains(digest, Started(w), ViewOf(w.objects), Cleaned(TargetNamespace(w.obj.value.spec), 0));
    }
  }

  /** Nothing that a pass learns takes it off the track. */
  lemma StaysOnTrack(digest: string -> string, i: Info, j: Info, v: View)
    requires OnTrack(digest, i, v) && (i.snap, i.base) == (j.snap, j.base)
    requires i.config.None? || j.config == i.config
    ensures OnTrack(digest, j, v)
  {
    if i.snap.Some? {
      var pass :| Explains(digest, i, v, pass);
      assert Explains(digest, j, v, pass);
    }
  }

  predicate Touches(act: Act) { act.Wrote? || act.WriteFailed? || act.Deleted? || act.DeleteFailed? }

  /** Managed objects change by the controller's writes and deletes only, and at
      every point are where the running pass has taken them. */
  ghost predicate PassesMoveObjects(digest: string -> string, before: World, e: Entry, i: Info) {
    && (!Touches(e.act) ==> ViewOf(e.world.objects) == ViewOf(before.objects))
    && OnTrack(digest, i, ViewOf(e.world.objects))
  }

  /** One entry in context: the world before it and what the log says by then. */
  datatype Point = Point(before: World, e: Entry, i: Info, ev: Evidence)

  function PointOf(log: seq<Entry>): Point
    requires log != []
  {
    Point(log[if |log| > 1 then |log| - 2 else 0].world, log[|log| - 1], InfoOf(log), EvidenceOf(log))
  }

  function NextPoint(w: World, i: Info, ev: Evidence, e: Entry): Point {
    Point(w, e, Advance(i, e), Gather(ev, Advance(i, e), e))
  }

  ghost predicate Rules(digest: string -> string, p: Point) {
    && Sound(p.e.world, p.i, p.ev)
    && WritesAreCovered(p.e, p.i)
    && FinalizerDiscipline(p.before, p.e, p.i)
    && PassesMoveObjects(digest, p.before, p.e, p.i)
    && ReadsWhatIsStored(p.e, p.i)
    && ObservesCompleteDeploys(digest, p.e, p.i)
    && ConfigurationAgrees(digest, p.e, p.i)
    && Tidy(p.before, p.e, p.i)
    && (!p.e.act.Elsewhere? ==> Unmanaged(p.e.world.objects) == Unmanaged(p.before.objects))
  }

  ghost predicate AtEveryPoint<T>(p: seq<T> -> bool, s: seq<T>) {
    forall n {:trigger p(s[..n])} :: 0 < n <= |s| ==> p(s[..n])
  }

  lemma OnePointMore<T>(p: seq<T> -> bool, s: seq<T>, x: T)
    requires AtEveryPoint(p, s) && p(s + [x])
    ensures AtEveryPoint(p, s + [x])
  {
    var t := s + [x];
    forall n | 0 < n <= |t| ensures p(t[..n]) {
      assert t[..n] == if n <= |s| then s[..n] else t;
    }
  }

  lemma EarlierPoints<T>(p: seq<T> -> bool, s: seq<T>, n: nat)
    requires AtEveryPoint(p, s) && n <= |s|
    ensures AtEveryPoint(p, s[..n])
  {
    forall m | 0 < m <= n ensures p(s[..n][..m]) {
      assert s[..n][..m] == s[..m];
    }
  }

  /** The rules hold of the last entry of a log. */
  ghost predicate Ok(digest: string -> string, log: seq<Entry>) {
    log != [] && Rules(digest, PointOf(log))
  }

  /** The rules have held at every point. */
  ghost predicate Lawful(digest: string -> string, log: seq<Entry>) {
    log != [] && AtEveryPoint((l: seq<Entry>) => Ok(digest, l), log)
  }

  lemma FoldsAppend(log: seq<Entry>, e: Entry)
    ensures InfoOf(log + [e]) == Advance(InfoOf(log), e)
    ensures log != [] ==> EvidenceOf(log + [e]) == Gather(EvidenceOf(log), InfoOf(log + [e]), e)
  {
    var next := log + [e];
    assert next[..|next| - 1] == log;
  }

  lemma PointAppends(log: seq<Entry>, e: Entry)
    requires log != []
    ensures PointOf(log + [e]) == NextPoint(log[|log| - 1].world, InfoOf(log), EvidenceOf(log), e)
  {
    FoldsAppend(log, e);
    var next := log + [e];
    assert next[|next| - 2] == log[|log| - 1];
  }

  lemma OkAppends(digest: string -> string, log: seq<Entry>, e: Entry, p: Point)
    requires log != [] && p == NextPoint(log[|log| - 1].world, InfoOf(log), EvidenceOf(log), e)
    requires Rules(digest, p)
    ensures Ok(digest, log + [e])
  {
    PointAppends(log, e);
  }

  lemma LawfulAppend(digest: string -> string, log: seq<Entry>, e: Entry)
    requires Lawful(digest, log) && Ok(digest, log + [e])
    ensures Lawful(digest, log + [e])
  {
    OnePointMore((l: seq<Entry>) => Ok(digest, l), log, e);
  }

  lemma FirstIsLawful(digest: string -> string, w: World)
    requires NoDangling(ViewOf(w.objects), NamespacesOf(w.objects))
    requires w.obj.Some? ==> w.obj.value.version <= w.clock && w.obj.value.uid <= w.clock
    ensures var log := [Entry(Elsewhere, w)];
            Lawful(digest, log) && InfoOf(log) == NO_PASS && EvidenceOf(log) == Inherited(w)
  {
    var log := [Entry(Elsewhere, w)];
    FoldsAppend([], log[0]);
    assert [] + log == log;
    assert Ok(digest, log);
    assert log[..1] == log;
  }

  /** A crash cuts a run short: what happened until then was lawful. */
  lemma LawfulPrefix(digest: string -> string, log: seq<Entry>, n: nat)
    requires Lawful(digest, log) && 0 < n <= |log|
    ensures Lawful(digest, log[..n])
  {
    EarlierPoints((l: seq<Entry>) => Ok(digest, l), log, n);
  }

  lemma LawfulAt(digest: string -> string, log: seq<Entry>, n: nat)
    requires Lawful(digest, log) && n < |log|
    ensures Ok(digest, log[..n + 1]) && log[..n + 1][n] == log[n]
  {
    var p := (l: seq<Entry>) => Ok(digest, l);
    assert p(log[..n + 1]);
  }

  // ---------------------------------------------------------------- what the rules mean for whole runs

  /** The pass that was running at entry `j` started at entry `s`. */
  predicate StartedAt(log: seq<Entry>, s: nat, j: nat) {
    s <= j < |log| && log[s].act.PassStart? && forall m :: s < m <= j ==> !log[m].act.PassStart?
  }

  /** What the log can say of a pass. */
  datatype Mark = Tried | Granted | Obtained | Withdrawn | FailedDelete | Failure

  predicate Marks(act: Act, mark: Mark) {
    match mark
    case Tried => act.ClusterRead? || (act.AccessReplied? && (act.reply.Refused? || act.reply.after > 0))
    case Granted => act.AccessReplied? && act.reply.Replied? && act.reply.after <= 0
    case Obtained => act == ClusterRead(true)
    case Withdrawn => act.WithdrawalReplied? && act.reply.Replied? && act.reply.after <= 0
    case FailedDelete => act.DeleteFailed?
    case Failure => IsFailure(act)
  }

  predicate HappensIn(log: seq<Entry>, s: nat, n: nat, mark: Mark)
    requires n <= |log|
  {
    exists j :: s < j < n && Marks(log[j].act, mark)
  }

  lemma HappensOneMore(log: seq<Entry>, s: nat, n: nat, mark: Mark)
    requires s < n < |log|
    ensures HappensIn(log, s, n + 1, mark) <==> HappensIn(log, s, n, mark) || Marks(log[n].act, mark)
  {
    if Marks(log[n].act, mark) { assert HappensIn(log, s, n + 1, mark); }
  }

  /** What the pass knows of itself. */
  predicate Knows(i: Info, mark: Mark) {
    match mark
    case Tried => i.access.Some?
    case Granted => i.granted
    case Obtained => i.cluster
    case Withdrawn => i.withdrawn
    case FailedDelete => i.cleanupFailed
    case Failure => i.failed
  }

  /** The pass that started at `s` read this configuration. */
  predicate ReadIn(log: seq<Entry>, s: nat, n: nat, config: Option<Data>)
    requires n <= |log|
  {
    exists c :: s < c < n && log[c].act == ReadConfig(config)
  }

  /** The answer of the library that settled access this way. */
  predicate Gives(act: Act, setup: Setup) {
    match setup
    case Ready => act == ClusterRead(true)
    case Wait(after) => (after > 0 && act == AccessReplied(Replied(after))) || (after == 30 && act == ClusterRead(false))
    case AccessError => act == AccessReplied(Refused)
  }

  predicate AccessIn(log: seq<Entry>, s: nat, n: nat, setup: Setup)
    requires n <= |log|
  {
    exists j :: s < j < n && Gives(log[j].act, setup)
  }

  predicate WithdrawalIn(log: seq<Entry>, s: nat, n: nat, reply: Reply)
    requires n <= |log|
  {
    exists j :: s < j < n && log[j].act == WithdrawalReplied(reply)
  }

  /** The counts were seen equal and positive, or seen not to be. */
  predicate Shows(act: Act, ready: bool) { act.Observed? && (ready <==> act.ready == act.total > 0) }

  predicate ShownIn(log: seq<Entry>, s: nat, n: nat, ready: bool)
    requires n <= |log|
  {
    exists j :: s < j < n && Shows(log[j].act, ready)
  }

  lemma ReadOneMore(log: seq<Entry>, s: nat, n: nat, config: Option<Data>)
    requires s < n < |log| && ReadIn(log, s, n, config)
    ensures ReadIn(log, s, n + 1, config)
  {
  }

  /** The pass information tells what happened in the pass that started at `s`. */
  predicate Tells(i: Info, log: seq<Entry>, s: nat, n: nat)
    requires 0 < n <= |log|
  {
    && StartedAt(log, s, n - 1) && log[s].world.obj == i.snap && ViewOf(log[s].world.objects) == i.base
    && (forall mark :: Knows(i, mark) <==> HappensIn(log, s, n, mark))
    && (i.config.Some? ==> ReadIn(log, s, n, i.config.value))
    && (i.access.Some? ==> AccessIn(log, s, n, i.access.value))
    && (i.withdrawal.Some? ==> WithdrawalIn(log, s, n, i.withdrawal.value))
    && (i.ready.Some? ==> ShownIn(log, s, n, i.ready.value))
  }

  /** What one act adds to what a pass knows. */
  predicate Learns(i: Info, act: Act, j: Info) {
    && (j.snap, j.base) == (i.snap, i.base)
    && (forall mark :: Knows(j, mark) <==> Knows(i, mark) || Marks(act, mark))
    && (j.config == i.config || (j.config.Some? && act == ReadConfig(j.config.value)))
    && (j.access == i.access || (j.access.Some? && Gives(act, j.access.value)))
    && (j.withdrawal == i.withdrawal || (j.withdrawal.Some? && act == WithdrawalReplied(j.withdrawal.value)))
    && (j.ready == i.ready || (j.ready.Some? && Shows(act, j.ready.value)))
  }

  lemma AdvanceLearns(i: Info, e: Entry)
    requires !e.act.PassStart?
    ensures Learns(i, e.act, Advance(i, e))
  {
  }

  lemma TellsOneMore(i: Info, j: Info, log: seq<Entry>, s: nat, n: nat)
    requires 0 < n < |log| && Tells(i, log, s, n) && !log[n].act.PassStart? && Learns(i, log[n].act, j)
    ensures Tells(j, log, s, n + 1)
  {
    forall mark ensures Knows(j, mark) <==> HappensIn(log, s, n + 1, mark) {
      HappensOneMore(log, s, n, mark);
    }
    if i.config.Some? { ReadOneMore(log, s, n, i.config.value); }
  }

  /** What a pass knows about itself is what the log says happened since its start. */
  lemma {:induction false} PassHistory(log: seq<Entry>, n: nat) returns (s: nat)
    requires 0 < n <= |log| && InfoOf(log[..n]).snap.Some?
    ensures Tells(InfoOf(log[..n]), log, s, n)
  {
    assert log[..n][..n - 1] == log[..n - 1];
    if log[n - 1].act.PassStart? {
      s := n - 1;
    } else {
      assert n > 1;
      s := PassHistory(log, n - 1);
      var i := InfoOf(log[..n - 1]);
      AdvanceLearns(i, log[n - 1]);
      TellsOneMore(i, InfoOf(log[..n]), log, s, n - 1);
    }
  }

  /** Entry `c` read the configuration that was stored for the namespace. */
  predicate ReadAt(log: seq<Entry>, c: nat, ns: string, config: Option<Data>) {
    c < |log| && log[c].act == ReadConfig(config) && config == ConfigAt(log[c].world.objects, ns)
  }

  /** Since entry `n` a pass has started that fetched this object. */
  predicate Fetches(log: seq<Entry>, n: nat, k: Ksm) {
    exists s :: n <= s < |log| && log[s].act.PassStart? && log[s].world.obj == Some(k)
  }

  /** Since entry `n` the configuration stored for the namespace has been read. */
  predicate Reads(log: seq<Entry>, n: nat, ns: string, config: Option<Data>) {
    exists c :: n <= c < |log| && ReadAt(log, c, ns, config)
  }

  /** Since entry `n` a pass has tried to store a status. */
  predicate TriesStatus(log: seq<Entry>, n: nat) {
    exists k :: n <= k < |log| && (log[k].act.StatusWritten? || log[k].act.Published? || log[k].act.StatusFailed?)
  }

  lemma TriesStays(log: seq<Entry>, later: seq<Entry>, m: nat, n: nat)
    requires log <= later && n <= m && TriesStatus(log, m)
    ensures TriesStatus(later, n)
  {
    var k :| m <= k < |log| && (log[k].act.StatusWritten? || log[k].act.Published? || log[k].act.StatusFailed?);
    assert later[k] == log[k];
  }

  lemma ReadsStays(log: seq<Entry>, later: seq<Entry>, m: nat, n: nat, ns: string, config: Option<Data>)
    requires log <= later && n <= m && Reads(log, m, ns, config)
    ensures Reads(later, n, ns, config)
  {
    var c :| m <= c < |log| && ReadAt(log, c, ns, config);
    assert ReadAt(later, c, ns, config);
  }

  /** What a pass has read was stored, at the time, in the target namespace of the
      object it had fetched. */
  lemma ReadWasStored(digest: string -> string, log: seq<Entry>, s: nat, n: nat, config: Option<Data>) returns (c: nat)
    requires Lawful(digest, log) && 0 < n <= |log| && StartedAt(log, s, n - 1) && ReadIn(log, s, n, config)
    ensures s < c < n && StartedAt(log, s, c)
    ensures log[s].world.obj.Some? && ReadAt(log, c, TargetNamespace(log[s].world.obj.value.spec), config)
  {
    c :| s < c < n && log[c].act == ReadConfig(config);
    LawfulAt(digest, log, c);
    var s' := PassHistory(log, c + 1);
    assert s' == s;
  }

  lemma {:induction false} EvidenceHasAnEntry(log: seq<Entry>, n: nat, id: (nat, int)) returns (j: nat)
    requires 0 < n <= |log| && id in EvidenceOf(log[..n]) && id !in Inherited(log[0].world)
    ensures j < n && SawReady(log[j])
    ensures var i := InfoOf(log[..j + 1]); i.snap.Some? && id == (i.snap.value.uid, i.snap.value.generation)
  {
    assert n > 1;
    assert log[..n][..n - 1] == log[..n - 1];
    if id in EvidenceOf(log[..n - 1]) {
      j := EvidenceHasAnEntry(log, n - 1, id);
    } else {
      j := n - 1;
    }
  }

  /** Between `s` and `j` a pass over this object at this generation ran its deploy
      to the end, with the configuration it read at `c`, and saw it ready. */
  ghost predicate SawDeployed(digest: string -> string, log: seq<Entry>, s: nat, c: nat, j: nat, id: (nat, int)) {
    && s < c < j && StartedAt(log, s, j) && log[s].world.obj.Some?
    && var fetched := log[s].world.obj.value;
    && id == (fetched.uid, fetched.generation)
    && var config := ConfigAt(log[c].world.objects, TargetNamespace(fetched.spec));
    && log[c].act == ReadConfig(config)
    && log[j].act.Observed? && log[j].act.ready == log[j].act.total > 0
    && AllDesired(ViewOf(log[j].world.objects), Plan(digest, fetched.spec, config))
  }

  /** Ready is earned: whenever the stored status says Ready for generation g, it
      said so from the start, or an earlier pass fetched that object at generation
      g, read the stored configuration, completed every write for that spec and
      that configuration, and then saw all of a positive number of replicas ready. */
  lemma ReadyMeansDeployed(digest: string -> string, log: seq<Entry>, m: nat) returns (s: nat, c: nat, j: nat)
    requires Lawful(digest, log) && m < |log| && SaysReady(log[m].world)
    ensures (SaysReady(log[0].world) && Claim(log[0].world) == Claim(log[m].world))
         || (j <= m && SawDeployed(digest, log, s, c, j, Claim(log[m].world)))
  {
    s, c, j := 0, 0, 0;
    LawfulAt(digest, log, m);
    var id := Claim(log[m].world);
    if id !in Inherited(log[0].world) { s, c, j := EvidenceMeansDeployed(digest, log, m, id); }
  }

  lemma EvidenceMeansDeployed(digest: string -> string, log: seq<Entry>, m: nat, id: (nat, int)) returns (s: nat, c: nat, j: nat)
    requires Lawful(digest, log) && m < |log|
    requires id in EvidenceOf(log[..m + 1]) && id !in Inherited(log[0].world)
    ensures j <= m && SawDeployed(digest, log, s, c, j, id)
  {
    j := EvidenceHasAnEntry(log, m + 1, id);
    s := PassHistory(log, j + 1);
    ObservedIsComplete(digest, log, j);
    c := ReadWasStored(digest, log, s, j + 1, InfoOf(log[..j + 1]).config.value);
  }

  lemma ObservedIsComplete(digest: string -> string, log: seq<Entry>, j: nat)
    requires Lawful(digest, log) && j < |log| && log[j].act.Observed?
    ensures var i := InfoOf(log[..j + 1]);
            && i.snap.Some? && i.config.Some?
            && AllDesired(ViewOf(log[j].world.objects), Plan(digest, i.snap.value.spec, i.config.value))
  {
    LawfulAt(digest, log, j);
  }

  lemma PublishedIsKnown(digest: string -> string, log: seq<Entry>, m: nat)
    requires Lawful(digest, log) && m < |log| && log[m].act.Published?
    ensures var i := InfoOf(log[..m + 1]);
            && i.snap.Some? && i.config.Some?
            && Agrees(digest, log[m].world, TargetNamespace(i.snap.value.spec), i.config.value)
  {
    LawfulAt(digest, log, m);
  }

  /** Whenever a pass publishes what it found, the stored status, the annotation of
      the pods and the fingerprint of the configuration that the pass read agree. */
  lemma PublishedConfigurationAgrees(digest: string -> string, log: seq<Entry>, m: nat) returns (s: nat, c: nat)
    requires Lawful(digest, log) && m < |log| && log[m].act.Published?
    ensures s < c < m && StartedAt(log, s, m) && log[s].world.obj.Some?
    ensures var ns := TargetNamespace(log[s].world.obj.value.spec);
            var config := ConfigAt(log[c].world.objects, ns);
            log[c].act == ReadConfig(config) && Agrees(digest, log[m].world, ns, config)
  {
    PublishedIsKnown(digest, log, m);
    s := PassHistory(log, m + 1);
    c := ReadWasStored(digest, log, s, m + 1, InfoOf(log[..m + 1]).config.value);
  }

  /** At no point of a run does a managed object refer to a missing one. */
  lemma ReferencesNeverDangle(digest: string -> string, log: seq<Entry>, m: nat)
    requires Lawful(digest, log) && m < |log|
    ensures NoDangling(ViewOf(log[m].world.objects), NamespacesOf(log[m].world.objects))
  {
    LawfulAt(digest, log, m);
  }

  /** Every write falls into a pass that fetched a live object and obtained access,
      and finds the finalizer persisted. */
  lemma WritesFollowFinalizer(digest: string -> string, log: seq<Entry>, m: nat) returns (s: nat)
    requires Lawful(digest, log) && m < |log| && (log[m].act.Wrote? || log[m].act.WriteFailed?)
    ensures StartedAt(log, s, m) && log[s].world.obj.Some? && !log[s].world.obj.value.deleting
    ensures HappensIn(log, s, m + 1, Obtained) && Held(log[m].world)
  {
    LawfulAt(digest, log, m);
    s := PassHistory(log, m + 1);
  }

  /** Whenever the finalizer goes, the pass that took it off had asked for access,
      withdrawn it and seen no delete fail; and if it had obtained access, none of
      the six objects of the namespace it was asked to clean is left. */
  lemma FinalizerGoesLast(digest: string -> string, log: seq<Entry>, m: nat) returns (s: nat)
    requires Lawful(digest, log) && 0 < m < |log|
    requires Held(log[m - 1].world) && !Held(log[m].world)
    ensures log[m].act.FinalizerRemoved? && StartedAt(log, s, m) && log[s].world.obj.Some?
    ensures HappensIn(log, s, m + 1, Tried) && HappensIn(log, s, m + 1, Withdrawn)
    ensures !HappensIn(log, s, m + 1, FailedDelete)
    ensures HappensIn(log, s, m + 1, Obtained) ==>
              AllAbsent(ViewOf(log[m].world.objects), TargetNamespace(log[s].world.obj.value.spec))
  {
    LawfulAt(digest, log, m);
    assert log[..m + 1][m - 1] == log[m - 1];
    s := PassHistory(log, m + 1);
  }
}
