/** What every step of the deletion protocol keeps, and what follows for whole
    runs with faults, restarts and outside acts between any two calls. */
module DeletionSafety {
  import opened Common
  import opened DeletionProtocol

  /** The calls of a pass that saw the object without a deletion timestamp. */
  predicate Applying(pc: Pc) {
    match pc
    case Loaded(o) => !o.deleting
    case Refetch(_) => true
    case Recreate(_) => true
    case AddFinalizer(_) => true
    case DomainApply(_) => true
    case ApplyStatus(_, _) => true
    case Clusters(_, _, teardown) => !teardown
    case _ => false
  }

  /** The calls of a pass that saw the deletion timestamp. */
  predicate TearingDown(pc: Pc) {
    match pc
    case Loaded(o) => o.deleting
    case CheckMcp(_) => true
    case CheckWorkload(_) => true
    case DomainDelete(_) => true
    case DeleteStatus(_, _) => true
    case AccessDelete(_) => true
    case DropFinalizer(_) => true
    case Clusters(_, _, teardown) => teardown
    case _ => false
  }

  predicate AnyAccess(w: World) { !w.mcp.Absent? || !w.workload.Absent? }

  predicate AnyWithdrawn(w: World) { w.mcp.Deleting? || w.workload.Deleting? }

  /** Facts about the stored state alone. */
  predicate StoreInv(workload: bool, w: World) {
    && (!workload ==> w.workload.Absent?)
    && (w.domain != {} ==> Holds(w) && AllLive(workload, w))
    && (AnyAccess(w) ==> Holds(w))
    && (AnyWithdrawn(w) ==> Terminating(w))
  }

  /** What the running pass may rely on at its next call.  At AccessDelete this is
      what justifies reading "the domain is clean" off the AccessRequests. */
  predicate PassInv(workload: bool, w: World, pc: Pc) {
    && (Applying(pc) ==> !AnyWithdrawn(w))
    && (TearingDown(pc) && AnyAccess(w) ==> Terminating(w))
    && match pc
       case Clusters(stage, _, teardown) =>
         Holds(w) && (teardown || !stage.Renew? ==> AllLive(workload, w))
       case CheckWorkload(_) => workload && Live(w.mcp)
       case DomainApply(_) => Holds(w) && AllLive(workload, w)
       case DomainDelete(_) => AllLive(workload, w)
       case DeleteStatus(_, out) => out.Done? ==> w.domain == {}
       case AccessDelete(_) => w.domain == {}
       case DropFinalizer(_) => w.domain == {} && !AnyAccess(w)
       case _ => true
  }

  predicate Inv(workload: bool, s: State) { StoreInv(workload, s.w) && PassInv(workload, s.w, s.pc) }

  lemma InitEstablishes(workload: bool, s: State)
    requires Init(s)
    ensures Inv(workload, s)
  {
  }

  lemma ApplyCallKeeps(workload: bool, s: State, out: Outcome, t: State)
    requires Inv(workload, s) && Step(workload, s, Call(out), t) && Applying(s.pc)
    ensures Inv(workload, t)
  {
  }

  lemma TeardownCallKeeps(workload: bool, s: State, out: Outcome, t: State)
    requires Inv(workload, s) && Step(workload, s, Call(out), t) && TearingDown(s.pc)
    ensures Inv(workload, t)
  {
  }

  lemma CallKeeps(workload: bool, s: State, out: Outcome, t: State)
    requires Inv(workload, s) && Step(workload, s, Call(out), t)
    ensures Inv(workload, t)
  {
    if Applying(s.pc) {
      ApplyCallKeeps(workload, s, out, t);
    } else if TearingDown(s.pc) {
      TeardownCallKeeps(workload, s, out, t);
    }
  }

  lemma OutsideKeepsStore(workload: bool, w: World, v: World)
    requires StoreInv(workload, w) && Outside(workload, w, v)
    ensures StoreInv(workload, v)
  {
  }

  /** What nobody but the reconciler changes. */
  predicate Harmless(workload: bool, w: World, v: World) {
    && v.domain == w.domain && (Holds(w) ==> Holds(v)) && (AnyWithdrawn(v) ==> AnyWithdrawn(w))
    && (AnyAccess(v) ==> AnyAccess(w) && (Terminating(w) ==> Terminating(v)))
    && (AllLive(workload, w) ==> AllLive(workload, v)) && (Live(w.mcp) ==> Live(v.mcp))
  }

  lemma OutsideIsHarmless(workload: bool, w: World, v: World)
    requires StoreInv(workload, w) && Outside(workload, w, v)
    ensures Harmless(workload, w, v)
  {
  }

  lemma OutsideKeeps(workload: bool, s: State, t: State)
    requires Inv(workload, s) && Outside(workload, s.w, t.w) && t.pc == s.pc
    ensures Inv(workload, t)
  {
    OutsideKeepsStore(workload, s.w, t.w);
    OutsideIsHarmless(workload, s.w, t.w);
  }

  lemma StepKeeps(workload: bool, s: State, e: Event, t: State)
    requires Inv(workload, s) && Step(workload, s, e, t)
    ensures Inv(workload, t)
  {
    match e
    case Call(out) => CallKeeps(workload, s, out, t);
    case Settle => OutsideKeeps(workload, s, t);
    case Act => OutsideKeeps(workload, s, t);
    case Deliver =>
    case Restart =>
  }

  lemma {:induction false} RunKeeps(workload: bool, tr: seq<State>, i: nat)
    requires Run(workload, tr) && i < |tr|
    ensures Inv(workload, tr[i])
  {
    if i == 0 {
      InitEstablishes(workload, tr[0]);
    } else {
      RunKeeps(workload, tr, i - 1);
      assert Linked(workload, tr[i - 1], tr[i]);
      var e :| Step(workload, tr[i - 1], e, tr[i]);
      StepKeeps(workload, tr[i - 1], e, tr[i]);
    }
  }

  // ---------------------------------------------------------------- whole runs

  /** No leak: domain objects never outlive the persisted finalizer or the access
      that is needed to remove them. */
  lemma NoLeak(workload: bool, tr: seq<State>, i: nat)
    requires Run(workload, tr) && i < |tr|
    requires tr[i].w.domain != {}
    ensures Holds(tr[i].w) && AllLive(workload, tr[i].w)
  {
    RunKeeps(workload, tr, i);
  }

  /** The inference of a restarted pass: a missing or deleting AccessRequest, or
      having reached the withdrawal of access, means that the domain is empty. */
  lemma SkippingDomainDeleteIsSafe(workload: bool, tr: seq<State>, i: nat)
    requires Run(workload, tr) && i < |tr|
    requires !AllLive(workload, tr[i].w) || tr[i].pc.AccessDelete? || tr[i].pc.DropFinalizer?
    ensures tr[i].w.domain == {}
  {
    RunKeeps(workload, tr, i);
  }

  /** Whatever step makes the finalizer go, nothing is left behind before it and
      nothing after it. */
  lemma FinalizerGoesLast(workload: bool, tr: seq<State>, i: nat)
    requires Run(workload, tr) && 0 < i < |tr|
    requires Holds(tr[i - 1].w) && !Holds(tr[i].w)
    ensures tr[i - 1].pc.DropFinalizer?
    ensures tr[i - 1].w.domain == {} == tr[i].w.domain
    ensures !AnyAccess(tr[i - 1].w) && !AnyAccess(tr[i].w)
  {
    RunKeeps(workload, tr, i - 1);
    RunKeeps(workload, tr, i);
    assert Linked(workload, tr[i - 1], tr[i]);
  }

  /** Teardown has begun and no pass is left that started before the deletion. */
  predicate TornDown(workload: bool, s: State) {
    Terminating(s.w) && !AllLive(workload, s.w) && !Applying(s.pc)
  }

  lemma TornDownStays(workload: bool, s: State, e: Event, t: State)
    requires Inv(workload, s) && TornDown(workload, s) && Step(workload, s, e, t)
    requires Terminating(t.w)
    ensures TornDown(workload, t)
  {
  }

  /** Access is never renewed during teardown: once one required AccessRequest of
      a terminating object is missing or deleting, no later pass, restarted or
      not, asks for access again while that object exists. */
  lemma {:induction false} AccessIsNotRenewed(workload: bool, tr: seq<State>, i: nat, j: nat)
    requires Run(workload, tr) && i <= j < |tr|
    requires TornDown(workload, tr[i])
    requires forall k :: i <= k <= j ==> Terminating(tr[k].w)
    ensures TornDown(workload, tr[j]) && !tr[j].pc.Clusters?
  {
    RunKeeps(workload, tr, j);
    if i < j {
      AccessIsNotRenewed(workload, tr, i, j - 1);
      RunKeeps(workload, tr, j - 1);
      assert Linked(workload, tr[j - 1], tr[j]);
      var e :| Step(workload, tr[j - 1], e, tr[j]);
      TornDownStays(workload, tr[j - 1], e, tr[j]);
    }
  }

  // ---------------------------------------------------------------- what the reconciler leaves alone

  /** No call of the reconciler adds or takes off a finalizer of somebody else; the
      object goes away only when it is being deleted and nobody else holds it. */
  lemma ForeignFinalizersStay(workload: bool, s: State, out: Outcome, t: State)
    requires Step(workload, s, Call(out), t) && s.w.obj.Some?
    ensures if t.w.obj.Some? then
              t.w.obj.value.foreign == s.w.obj.value.foreign && t.w.obj.value.deleting == s.w.obj.value.deleting
            else
              s.w.obj.value.deleting && !s.w.obj.value.foreign
  {
  }

  // ---------------------------------------------------------------- a run that has something to lose

  lemma DoneNext(workload: bool, tr: seq<State>, v: World) returns (more: seq<State>)
    requires Run(workload, tr) && var s := tr[|tr| - 1]; Effect(workload, s.pc, s.w, Done, v)
    ensures var s := tr[|tr| - 1];
            more == tr + [State(v, s.config, Next(workload, s.config, s.pc, Done, v))] && Run(workload, more)
  {
    var s := tr[|tr| - 1];
    var t := State(v, s.config, Next(workload, s.config, s.pc, Done, v));
    more := tr + [t];
    assert Step(workload, s, Call(Done), t);
    forall i | 0 < i < |more| ensures Linked(workload, more[i - 1], more[i]) {
      if i < |tr| { assert Linked(workload, tr[i - 1], tr[i]); }
    }
  }

  /** A pass over a live object that is about to renew its access. */
  lemma PassReachesAccess(workload: bool) returns (tr: seq<State>)
    ensures Run(workload, tr)
    ensures var s := tr[|tr| - 1];
            && s.w == World(Some(Obj(1, false, true, false)), Absent, Absent, {}, 1)
            && s.pc == Clusters(Renew, Obj(1, false, true, false), false)
  {
    var w := World(Some(Obj(1, false, true, false)), Absent, Absent, {}, 1);
    tr := [State(w, Some(60), Idle)];
    tr := DoneNext(workload, tr, w);                                                  // Get
    tr := DoneNext(workload, tr, w);                                                  // the cached config
    tr := DoneNext(workload, tr, w);                                                  // CreateOrUpdate of the object
  }

  /** From there to the domain service. */
  lemma PassReachesDomain(workload: bool) returns (tr: seq<State>)
    ensures Run(workload, tr) && tr[|tr| - 1].pc.DomainApply?
  {
    tr := PassReachesAccess(workload);
    var w := tr[|tr| - 1].w.(mcp := Granted, workload := if workload then Granted else Absent);
    tr := DoneNext(workload, tr, w);
    tr := DoneNext(workload, tr, w);
    tr := DoneNext(workload, tr, w);
    if workload {
      tr := DoneNext(workload, tr, w);
      tr := DoneNext(workload, tr, w);
    }
  }

  /** Domain objects do come about: a pass over a live object with access fills the
      domain, so the results above speak of something. */
  lemma DomainFills(workload: bool) returns (tr: seq<State>)
    ensures Run(workload, tr) && tr[|tr| - 1].w.domain != {}
  {
    tr := PassReachesDomain(workload);
    tr := DoneNext(workload, tr, tr[|tr| - 1].w.(domain := {0}));
  }
}
