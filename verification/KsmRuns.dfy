/** Whole runs of the KubeStateMetrics controller, cut by crashes wherever, seen as
    histories of passes: what is proved of histories holds at every point. */
module KsmRuns {
  import opened Common
  import opened Fingerprint
  import opened Mcp
  import opened McpHistory
  import opened KsmLog
  import S = StatusModel
  import C = KsmController

  /** The pass that started at `s` fetched the object that `pass` serves and, if
      `pass` deploys a configuration, read it from the store by entry `m`. */
  ghost predicate CarriedOut(digest: string -> string, log: seq<Entry>, s: nat, m: nat, pass: Pass) {
    && s <= m < |log| && log[s].act.PassStart? && log[s].world.obj.Some?
    && Serves(pass, log[s].world.obj.value.spec)
    && (pass.Deployed? ==> pass.plan.digest == digest)
    && (pass.Deployed? && pass.n > EARLY_WRITES ==>
          exists c :: s < c <= m && StartedAt(log, s, c) && ReadAt(log, c, Ns(pass.plan), pass.plan.config))
  }

  ghost predicate Fetched(digest: string -> string, log: seq<Entry>, m: nat, pass: Pass) {
    exists s :: CarriedOut(digest, log, s, m, pass)
  }

  ghost predicate IsHistory(digest: string -> string, log: seq<Entry>, m: nat, h: seq<Pass>)
    requires m < |log|
  {
    && AllLegal(h) && (forall i :: 0 <= i < |h| ==> Fetched(digest, log, m, h[i]))
    && ViewOf(log[m].world.objects) == Replay(ViewOf(log[0].world.objects), h)
  }

  lemma FetchedLater(digest: string -> string, log: seq<Entry>, n: nat, m: nat, pass: Pass)
    requires n <= m < |log| && Fetched(digest, log, n, pass)
    ensures Fetched(digest, log, m, pass)
  {
    var s :| CarriedOut(digest, log, s, n, pass);
    assert CarriedOut(digest, log, s, m, pass);
  }

  lemma HistoryGoesOn(digest: string -> string, log: seq<Entry>, n: nat, h: seq<Pass>, m: nat, pass: Pass)
    requires n <= m < |log| && IsHistory(digest, log, n, h)
    requires Legal(pass) && Fetched(digest, log, m, pass)
    requires ViewOf(log[m].world.objects) == After(ViewOf(log[n].world.objects), pass)
    ensures IsHistory(digest, log, m, h + [pass])
  {
    var g := h + [pass];
    assert g[..|g| - 1] == h;
    forall i | 0 <= i < |g| ensures Fetched(digest, log, m, g[i]) {
      if i < |h| { FetchedLater(digest, log, n, m, h[i]); }
    }
  }

  lemma HistoryStands(digest: string -> string, log: seq<Entry>, n: nat, h: seq<Pass>, m: nat)
    requires n <= m < |log| && IsHistory(digest, log, n, h)
    requires ViewOf(log[m].world.objects) == ViewOf(log[n].world.objects)
    ensures IsHistory(digest, log, m, h)
  {
    forall i | 0 <= i < |h| ensures Fetched(digest, log, m, h[i]) {
      FetchedLater(digest, log, n, m, h[i]);
    }
  }

  /** An entry that is no write or delete moves no managed object. */
  lemma NothingMoves(digest: string -> string, log: seq<Entry>, m: nat)
    requires Lawful(digest, log) && 0 < m < |log| && !Touches(log[m].act)
    ensures ViewOf(log[m].world.objects) == ViewOf(log[m - 1].world.objects)
  {
    LawfulAt(digest, log, m);
    assert log[..m + 1][m - 1] == log[m - 1];
  }

  /** What the running pass has made of the objects it found. */
  lemma PassSoFar(digest: string -> string, log: seq<Entry>, m: nat) returns (s: nat, pass: Pass)
    requires Lawful(digest, log) && m < |log| && InfoOf(log[..m + 1]).snap.Some?
    ensures StartedAt(log, s, m) && Legal(pass) && CarriedOut(digest, log, s, m, pass)
    ensures ViewOf(log[m].world.objects) == After(ViewOf(log[s].world.objects), pass)
  {
    LawfulAt(digest, log, m);
    var i := InfoOf(log[..m + 1]);
    s := PassHistory(log, m + 1);
    pass :| Explains(digest, i, ViewOf(log[m].world.objects), pass);
    if pass.Deployed? && pass.n > EARLY_WRITES {
      var c := ReadWasStored(digest, log, s, m + 1, pass.plan.config);
    }
  }

  /** Only a running pass touches managed objects. */
  lemma IdleTouchesNothing(digest: string -> string, log: seq<Entry>, m: nat)
    requires Lawful(digest, log) && m < |log| && InfoOf(log[..m + 1]).snap.None?
    ensures !Touches(log[m].act)
  {
    LawfulAt(digest, log, m);
  }

  /** At every point of every run, between any two calls and after any crash, the
      managed objects are the result of a history of complete or partial deploys
      and cleanups, each for an object that some pass had fetched by then and, from
      the Deployment on, for the stored configuration which that pass had read. */
  lemma {:induction false} EveryPointIsAHistory(digest: string -> string, log: seq<Entry>, m: nat) returns (h: seq<Pass>)
    requires Lawful(digest, log) && m < |log|
    ensures IsHistory(digest, log, m, h)
    decreases m
  {
    h := [];
    if InfoOf(log[..m + 1]).snap.Some? {
      var s, pass := PassSoFar(digest, log, m);
      if s > 0 {
        h := EveryPointIsAHistory(digest, log, s - 1);
        NothingMoves(digest, log, s);
        HistoryStands(digest, log, s - 1, h, s);
      }
      HistoryGoesOn(digest, log, s, h, m, pass);
      h := h + [pass];
    } else if m > 0 {
      h := EveryPointIsAHistory(digest, log, m - 1);
      IdleTouchesNothing(digest, log, m);
      NothingMoves(digest, log, m);
      HistoryStands(digest, log, m - 1, h, m);
    }
  }

  lemma {:induction false} CreatedByAPass(h: seq<Pass>, ns: string) returns (i: nat)
    requires ns in Created(h)
    ensures i < |h| && h[i].Deployed? && Ns(h[i].plan) == ns
  {
    var last := h[|h| - 1];
    if last.Deployed? && last.n > 0 && ns == Ns(last.plan) {
      i := |h| - 1;
    } else {
      i := CreatedByAPass(h[..|h| - 1], ns);
    }
  }

  /** Started next to a control plane without managed objects, the controller never
      leaves a namespaced object, at any point, outside the namespace of a spec that
      it had fetched, which is the default one if the spec names none. */
  lemma NothingStrays(digest: string -> string, log: seq<Entry>, m: nat, k: Key) returns (s: nat)
    requires Lawful(digest, log) && m < |log| && ViewOf(log[0].world.objects) == map[]
    requires k in ViewOf(log[m].world.objects) && Namespaced(k)
    ensures s <= m && log[s].act.PassStart? && log[s].world.obj.Some?
    ensures var namespace := log[s].world.obj.value.spec.namespace;
            if namespace == "" then k.namespace == "observability" else k.namespace == namespace
  {
    var h := EveryPointIsAHistory(digest, log, m);
    LeftoversAreBounded(h, "", k);
    var i := CreatedByAPass(h, k.namespace);
    assert Fetched(digest, log, m, h[i]);
    s :| CarriedOut(digest, log, s, m, h[i]);
  }

  // ---------------------------------------------------------------- the user's ConfigMaps

  function ConfigMapsOf(objects: Objects): Objects {
    map k | k in objects && k.kind.ConfigMapKind? :: objects[k]
  }

  lemma ConfigMapsAreUnmanaged(a: Objects, b: Objects)
    requires Unmanaged(a) == Unmanaged(b)
    ensures ConfigMapsOf(a) == ConfigMapsOf(b)
  {
    forall k: Key | k.kind.ConfigMapKind?
      ensures k in a <==> k in b
      ensures k in a ==> a[k] == b[k]
    {
      assert k in a <==> k in Unmanaged(a);
      assert k in b <==> k in Unmanaged(b);
    }
  }

  /** However many entries the controller makes, no ConfigMap is written or deleted
      unless somebody else does it. */
  lemma {:induction false} ConfigMapsAreTheUsers(digest: string -> string, log: seq<Entry>, a: nat, b: nat)
    requires Lawful(digest, log) && a <= b < |log|
    requires forall m :: a < m <= b ==> !log[m].act.Elsewhere?
    ensures ConfigMapsOf(log[a].world.objects) == ConfigMapsOf(log[b].world.objects)
  {
    if a < b {
      ConfigMapsAreTheUsers(digest, log, a, b - 1);
      LawfulAt(digest, log, b);
      assert log[..b + 1][b - 1] == log[b - 1];
      ConfigMapsAreUnmanaged(log[b - 1].world.objects, log[b].world.objects);
    }
  }

  // ---------------------------------------------------------------- dropping the finalizer

  /** A pass that has not obtained access leaves the managed objects as they are. */
  lemma {:induction false} WithoutAccessNothingMoves(digest: string -> string, log: seq<Entry>, s: nat, m: nat)
    requires Lawful(digest, log) && StartedAt(log, s, m) && log[s].world.obj.Some?
    requires !HappensIn(log, s, m + 1, Obtained)
    ensures ViewOf(log[s].world.objects) == ViewOf(log[m].world.objects)
  {
    if s < m {
      HappensOneMore(log, s, m, Obtained);
      WithoutAccessNothingMoves(digest, log, s, m - 1);
      assert !Touches(log[m].act) by {
        if Touches(log[m].act) { TouchingNeedsAccess(digest, log, s, m); }
      }
      NothingMoves(digest, log, m);
    }
  }

  lemma TouchingNeedsAccess(digest: string -> string, log: seq<Entry>, s: nat, m: nat)
    requires Lawful(digest, log) && StartedAt(log, s, m) && Touches(log[m].act)
    ensures HappensIn(log, s, m + 1, Obtained)
  {
    LawfulAt(digest, log, m);
    var t := PassHistory(log, m + 1);
    assert t == s;
  }

  lemma AbsentIsNotListed(objects: Objects, ns: string)
    ensures AllAbsent(ViewOf(objects), ns) <==> DeploymentKeys(ns) !! objects.Keys
  {
    forall k ensures Belongs(k, ns) <==> k in DeploymentKeys(ns) { BelongingIsListed(k, ns); }
    if AllAbsent(ViewOf(objects), ns) {
      forall k | k in DeploymentKeys(ns) ensures k !in objects.Keys {
        assert k in objects ==> k in ViewOf(objects);
      }
    }
  }

  /** When a pass drops the finalizer, none of the six objects of its namespace is
      left if and only if it had obtained access or there were none. */
  lemma DropIsClean(digest: string -> string, log: seq<Entry>, m: nat) returns (s: nat)
    requires Lawful(digest, log) && 0 < m < |log| && Held(log[m - 1].world) && !Held(log[m].world)
    ensures StartedAt(log, s, m) && log[s].world.obj.Some?
    ensures var namespace := log[s].world.obj.value.spec.namespace;
            var keys := DeploymentKeys(if namespace == "" then "observability" else namespace);
            keys !! log[m].world.objects.Keys <==>
            HappensIn(log, s, m + 1, Obtained) || keys !! log[s].world.objects.Keys
  {
    s := FinalizerGoesLast(digest, log, m);
    var ns := TargetNamespace(log[s].world.obj.value.spec);
    AbsentIsNotListed(log[m].world.objects, ns);
    AbsentIsNotListed(log[s].world.objects, ns);
    if !HappensIn(log, s, m + 1, Obtained) { WithoutAccessNothingMoves(digest, log, s, m); }
  }

  // ---------------------------------------------------------------- the object

  lemma TidyAt(digest: string -> string, log: seq<Entry>, m: nat)
    requires Lawful(digest, log) && 0 < m < |log|
    ensures Tidy(log[m - 1].world, log[m], InfoOf(log[..m + 1]))
  {
    LawfulAt(digest, log, m);
    assert log[..m + 1][m - 1] == log[m - 1];
  }

  /** No act of the controller adds or takes off a finalizer of somebody else, or
      changes the spec; the object goes away only when it is being deleted and
      nobody else holds it. */
  lemma ForeignFinalizersStay(digest: string -> string, log: seq<Entry>, m: nat, f: string)
    requires Lawful(digest, log) && 0 < m < |log| && !log[m].act.Elsewhere?
    requires log[m - 1].world.obj.Some? && f != FINALIZER
    ensures var x := log[m - 1].world.obj.value;
            if log[m].world.obj.Some? then
              var y := log[m].world.obj.value;
              (f in y.finalizers <==> f in x.finalizers) && y.spec == x.spec && y.deleting == x.deleting && y.uid == x.uid
            else
              x.deleting && f !in x.finalizers
  {
    TidyAt(digest, log, m);
    var x := log[m - 1].world.obj.value;
    assert f in x.finalizers <==> f in x.finalizers - {FINALIZER};
    if log[m].world.obj.Some? {
      var y := log[m].world.obj.value;
      assert f in y.finalizers <==> f in y.finalizers - {FINALIZER};
    }
  }

  /** If the first status tells a coherent story, every stored status of a run does:
      at most one Ready condition, phase Ready exactly when it is true, observed
      generations equal and not ahead of the object. */
  lemma {:induction false} StatusesStayCoherent(digest: string -> string, log: seq<Entry>, m: nat)
    requires Lawful(digest, log) && m < |log| && log[m].world.obj.Some?
    requires log[0].world.obj.Some? ==> S.Coherent(log[0].world.obj.value.status, log[0].world.obj.value.generation)
    ensures S.Coherent(log[m].world.obj.value.status, log[m].world.obj.value.generation)
  {
    if m > 0 {
      TidyAt(digest, log, m);
      if log[m - 1].world.obj.Some? { StatusesStayCoherent(digest, log, m - 1); } else { NewIsCoherent(digest, log, m); }
    }
  }

  /** A new object has no status yet. */
  lemma NewIsCoherent(digest: string -> string, log: seq<Entry>, m: nat)
    requires Lawful(digest, log) && 0 < m < |log| && log[m].world.obj.Some? && log[m - 1].world.obj.None?
    ensures log[m].world.obj.value.status == S.EMPTY
    ensures S.Coherent(log[m].world.obj.value.status, log[m].world.obj.value.generation)
  {
    TidyAt(digest, log, m);
  }

  /** As long as the object is there, its conditions of other kinds stay. */
  lemma {:induction false} OtherConditionsStay(digest: string -> string, log: seq<Entry>, a: nat, b: nat)
    requires Lawful(digest, log) && a <= b < |log|
    requires forall m :: a <= m <= b ==> log[m].world.obj.Some?
    ensures S.Others(log[b].world.obj.value.status.conditions, "Ready")
         == S.Others(log[a].world.obj.value.status.conditions, "Ready")
  {
    if a < b {
      OtherConditionsStay(digest, log, a, b - 1);
      TidyAt(digest, log, b);
    }
  }

  /** What a pass publishes after an error-free deploy says Ready, in phase and
      condition, exactly if the pass has seen all of a positive number of replicas
      ready; and it says so for the generation that was fetched. */
  lemma PublishedReadinessWasSeen(digest: string -> string, log: seq<Entry>, m: nat) returns (s: nat, j: nat)
    requires Lawful(digest, log) && 0 < m < |log| && log[m].act.Published?
    ensures s < j < m && StartedAt(log, s, m) && log[s].world.obj.Some? && log[m].world.obj.Some?
    ensures log[j].act.Observed? && var ready := log[j].act.ready == log[j].act.total > 0;
            S.Says(log[m].world.obj.value.status, log[s].world.obj.value.generation, ready,
                   if ready then "ReconcileSuccess" else "WaitingForPods", if ready then "Ready" else "Progressing")
  {
    TidyAt(digest, log, m);
    s := PassHistory(log, m + 1);
    j :| s < j < m + 1 && Shows(log[j].act, InfoOf(log[..m + 1]).ready.value);
  }

  /** What a pass stores otherwise says that it terminates, if the object it fetched
      was being deleted, and else that it is progressing, after a failure. */
  lemma WrittenStatusSaysWhy(digest: string -> string, log: seq<Entry>, m: nat) returns (s: nat)
    requires Lawful(digest, log) && 0 < m < |log| && log[m].act.StatusWritten?
    ensures StartedAt(log, s, m) && log[s].world.obj.Some? && log[m].world.obj.Some?
    ensures var fetched, status := log[s].world.obj.value, log[m].world.obj.value.status;
            if fetched.deleting then S.Says(status, fetched.generation, false, "Terminating", "Terminating")
            else exists reason :: S.Says(status, fetched.generation, false, reason, "Progressing")
  {
    TidyAt(digest, log, m);
    s := PassHistory(log, m + 1);
  }

  // ---------------------------------------------------------------- what the library and the store said

  /** A pass that obtained access had been granted it by the library, with nothing
      left to wait for, before it read the cluster. */
  lemma ObtainedIsGranted(digest: string -> string, log: seq<Entry>, m: nat) returns (s: nat, j: nat)
    requires Lawful(digest, log) && 0 < m < |log| && log[m].act.ClusterRead? && InfoOf(log[..m + 1]).snap.Some?
    ensures StartedAt(log, s, m) && s < j < m
    ensures log[j].act.AccessReplied? && log[j].act.reply.Replied? && log[j].act.reply.after <= 0
  {
    TidyAt(digest, log, m);
    s := PassHistory(log, m + 1);
    j := MarkHasAnEntry(InfoOf(log[..m + 1]), log, s, m + 1, Granted);
  }

  lemma MarkHasAnEntry(i: Info, log: seq<Entry>, s: nat, n: nat, mark: Mark) returns (j: nat)
    requires 0 < n <= |log| && Tells(i, log, s, n) && Knows(i, mark)
    ensures s < j < n && Marks(log[j].act, mark)
  {
    j :| s < j < n && Marks(log[j].act, mark);
  }

  /** What a pass reads as its configuration is the user's ConfigMap, in the
      namespace of the spec or else the default one. */
  lemma ReadIsTheUsersConfigMap(digest: string -> string, log: seq<Entry>, c: nat) returns (s: nat)
    requires Lawful(digest, log) && c < |log| && log[c].act.ReadConfig?
    ensures StartedAt(log, s, c) && log[s].world.obj.Some?
    ensures var namespace, objects := log[s].world.obj.value.spec.namespace, log[c].world.objects;
            var key := Key(ConfigMapKind, if namespace == "" then "observability" else namespace, "kube-state-metrics-config");
            if log[c].act.config.Some? then key in objects && objects[key].fields == ConfigMapFields(log[c].act.config.value)
            else key in objects ==> !objects[key].fields.ConfigMapFields?
  {
    LawfulAt(digest, log, c);
    s := PassHistory(log, c + 1);
  }

  /** A control plane that holds a namespace, the objects of a view in it and
      nothing else. */
  function Holding(v: View, ns: string): Objects {
    (map k | k in v :: Object(v[k], 0))[KeyOf(NamespaceKind, ns) := Object(NamespaceFields, 0)]
  }

  lemma HoldingIsWhatItHolds(v: View, ns: string)
    requires forall k :: k in v ==> IsManaged(k)
    ensures ViewOf(Holding(v, ns)) == v && ns in NamespacesOf(Holding(v, ns))
  {
    var key := KeyOf(NamespaceKind, ns);
    assert key in Holding(v, ns) && key.name == ns && !IsManaged(key);
  }

  ghost function DeployedOnly(p: Plan): Objects { Holding(Written(map[], p, WRITES), Ns(p)) }

  lemma DeployedOnlyIsSound(p: Plan)
    ensures ViewOf(DeployedOnly(p)) == Written(map[], p, WRITES)
    ensures NoDangling(ViewOf(DeployedOnly(p)), NamespacesOf(DeployedOnly(p)))
  {
    var v := Written(map[], p, WRITES);
    forall k | k in v ensures IsManaged(k) { WrittenAt(map[], p, WRITES, k); }
    HoldingIsWhatItHolds(v, Ns(p));
    assert NoDangling(map[], NamespacesOf(DeployedOnly(p)));
    WritesKeepReferences(map[], p, WRITES, NamespacesOf(DeployedOnly(p)));
  }

  lemma Extends(digest: string -> string, log: seq<Entry>, e: Entry)
    requires Lawful(digest, log)
    requires Rules(digest, NextPoint(log[|log| - 1].world, InfoOf(log), EvidenceOf(log), e))
    ensures Lawful(digest, log + [e]) && InfoOf(log + [e]) == Advance(InfoOf(log), e)
  {
    OkAppends(digest, log, e, NextPoint(log[|log| - 1].world, InfoOf(log), EvidenceOf(log), e));
    LawfulAppend(digest, log, e);
    FoldsAppend(log, e);
  }

  /** What holds after every entry of a lawful log. */
  lemma SoundAtTheEnd(digest: string -> string, log: seq<Entry>)
    requires Lawful(digest, log)
    ensures Sound(log[|log| - 1].world, InfoOf(log), EvidenceOf(log))
    ensures OnTrack(digest, InfoOf(log), ViewOf(log[|log| - 1].world.objects))
  {
    LawfulAt(digest, log, |log| - 1);
    assert log[..|log|] == log;
  }

  lemma TellsMore(digest: string -> string, log: seq<Entry>, act: Act)
    requires Lawful(digest, log) && C.OnlyTells(log[|log| - 1].world, InfoOf(log), act)
    ensures var e := Entry(act, log[|log| - 1].world);
            Lawful(digest, log + [e]) && InfoOf(log + [e]) == C.Learn(InfoOf(log), act)
  {
    SoundAtTheEnd(digest, log);
    C.TellingRules(digest, log[|log| - 1].world, InfoOf(log), EvidenceOf(log), act);
    Extends(digest, log, Entry(act, log[|log| - 1].world));
  }

  /** An object that is being deleted next to its complete deployment. */
  ghost function Doomed(p: Plan): World {
    World(Some(Ksm(1, 1, 1, true, {FINALIZER}, p.spec, S.EMPTY)), DeployedOnly(p), 1)
  }

  /** The pass over it that cannot get access, up to the withdrawal. */
  ghost function LeakingPass(p: Plan): seq<Entry> {
    var w := Doomed(p);
    [Entry(Elsewhere, w)] + [Entry(PassStart, w)] + [Entry(AccessReplied(Refused), w)] + [Entry(WithdrawalReplied(Replied(0)), w)]
  }

  lemma LeakingPassIsLawful(p: Plan)
    ensures Lawful(p.digest, LeakingPass(p))
    ensures InfoOf(LeakingPass(p)) == Started(Doomed(p)).(access := Some(AccessError), failed := true,
                                                                      withdrawal := Some(Replied(0)), withdrawn := true)
  {
    var w := Doomed(p);
    DeployedOnlyIsSound(p);
    FirstIsLawful(p.digest, w);
    var log := [Entry(Elsewhere, w)];
    SoundAtTheEnd(p.digest, log);
    C.StartRules(p.digest, w, InfoOf(log), EvidenceOf(log));
    Extends(p.digest, log, Entry(PassStart, w));
    log := log + [Entry(PassStart, w)];
    TellsMore(p.digest, log, AccessReplied(Refused));
    log := log + [Entry(AccessReplied(Refused), w)];
    TellsMore(p.digest, log, WithdrawalReplied(Replied(0)));
  }

  /** A lawful log of a pass that gets no access, withdraws what there is and drops
      the finalizer: the whole deployment stays behind. */
  lemma DropWithoutAccessLeaks(p: Plan) returns (log: seq<Entry>)
    ensures Lawful(p.digest, log) && |log| > 1
    ensures Held(log[|log| - 2].world) && !Held(log[|log| - 1].world)
    ensures AllDesired(ViewOf(log[|log| - 1].world.objects), p)
  {
    log := LeakingPass(p);
    LeakingPassIsLawful(p);
    var w := Doomed(p);
    SoundAtTheEnd(p.digest, log);
    C.DropRules(p.digest, w, InfoOf(log), EvidenceOf(log));
    var e := Entry(FinalizerRemoved, C.Stored(w, C.Dropping(w.obj.value)));
    Extends(p.digest, log, e);
    log := log + [e];
    DeployedOnlyIsSound(p);
    C.CompleteIsDesired(map[], p);
  }
}
