/** The deletion and finalizer protocol of the generic reconciler as a small-step
    machine: one step is one API call of a pass, or one act of its environment
    (a user, another controller, a restart), which may fall between any two
    calls.  Passes for one object never overlap. */
module DeletionProtocol {
  import opened Common

  /** Life of an AccessRequest; Pending and Granted ones are live. */
  datatype Access = Absent | Pending | Granted | Deleting

  /** The onboarding object as the API server stores it.  `ours` and `foreign`
      say whether our finalizer and any other finalizer are persisted. */
  datatype Obj = Obj(version: nat, deleting: bool, ours: bool, foreign: bool)

  /** What the calls of a pass can observe and change. */
  datatype World = World(obj: Option<Obj>, mcp: Access, workload: Access, domain: set<nat>, clock: nat)

  /** Result of one call; Skip is a call that the code leaves out. */
  datatype Outcome = Done | Requeue(after: int) | Failed | Skipped

  datatype Stage = Renew | McpCluster | McpSecret | WorkloadCluster | WorkloadSecret

  /** The next call of the pass, with the fetched object it works on. */
  datatype Pc =
    | Idle
    | Loaded(o: Obj)
    | ReportNoConfig(o: Obj)
    // delete
    | CheckMcp(o: Obj)
    | CheckWorkload(o: Obj)
    | DomainDelete(o: Obj)
    | DeleteStatus(o: Obj, out: Outcome)
    | AccessDelete(o: Obj)
    | DropFinalizer(o: Obj)
    // createOrUpdate
    | Refetch(o: Obj)
    | Recreate(o: Obj)
    | AddFinalizer(o: Obj)
    | DomainApply(o: Obj)
    | ApplyStatus(o: Obj, out: Outcome)
    // clusters, called by both
    | Clusters(stage: Stage, o: Obj, teardown: bool)

  /** `config` is the cached provider config, reduced to its poll interval. */
  datatype State = State(w: World, config: Option<int>, pc: Pc)

  predicate Live(a: Access) { a.Pending? || a.Granted? }

  predicate Gone(a: Access) { a.Absent? || a.Deleting? }

  /** Every AccessRequest the reconciler needs is present and not deleting. */
  predicate AllLive(workload: bool, w: World) { Live(w.mcp) && (workload ==> Live(w.workload)) }

  predicate Holds(w: World) { w.obj.Some? && w.obj.value.ours }

  predicate Terminating(w: World) { w.obj.Some? && w.obj.value.deleting }

  // ---------------------------------------------------------------- the API server

  function Touched(w: World, o: Obj): World {
    w.(obj := Some(o.(version := w.clock + 1)), clock := w.clock + 1)
  }

  /** Storing a change: an object being deleted goes away with its last finalizer. */
  function Stored(w: World, o: Obj): World {
    if o.deleting && !o.ours && !o.foreign then w.(obj := None, clock := w.clock + 1) else Touched(w, o)
  }

  predicate Current(w: World, o: Obj) { w.obj.Some? && w.obj.value.version == o.version }

  /** A call that changes nothing, or one that publishes a new status. */
  predicate StatusWrite(w: World, out: Outcome, v: World) {
    match out
    case Done => w.obj.Some? && v == Touched(w, w.obj.value)
    case Failed => v == w || (w.obj.Some? && v == Touched(w, w.obj.value))
    case _ => out.Skipped? && v == w
  }

  /** Access is created where absent and may be granted; nothing is withdrawn. */
  predicate Renewed(a: Access, b: Access) {
    match a
    case Absent => !b.Deleting?
    case Pending => Live(b)
    case _ => b == a
  }

  /** Access is only withdrawn. */
  predicate Withdrawn(a: Access, b: Access) {
    b == a || b.Absent? || (b.Deleting? && !a.Absent?)
  }

  // ---------------------------------------------------------------- one call

  /** What the call at `pc` may do to the world.  Failing without effect is
      always possible; a failed write may also have taken effect. */
  predicate Effect(workload: bool, pc: Pc, w: World, out: Outcome, v: World) {
    match pc
    case Idle => v == w && (out.Done? || out.Failed?)
    case Loaded(_) => v == w && out.Done?
    case ReportNoConfig(_) => StatusWrite(w, out, v)
    case CheckMcp(_) => v == w && (out.Done? || out.Failed?)
    case CheckWorkload(_) => v == w && (out.Done? || out.Failed?)
    case DomainDelete(_) =>
      v == w.(domain := v.domain) && v.domain <= w.domain && Completes(out) && (out.Done? ==> v.domain == {})
    case DeleteStatus(_, _) => StatusWrite(w, out, v)
    case AccessDelete(_) =>
      && v == w.(mcp := v.mcp, workload := v.workload)
      && Withdrawn(w.mcp, v.mcp) && Withdrawn(w.workload, v.workload)
      && Completes(out) && (out.Done? ==> v.mcp.Absent? && v.workload.Absent?)
    case DropFinalizer(o) =>
      || (out.Failed? && v == w)
      || ((out.Done? || out.Failed?) && Current(w, o) && v == Stored(w, w.obj.value.(ours := false)))
    case Refetch(_) => v == w && (out.Done? || out.Failed?)
    case Recreate(o) =>
      || (out.Failed? && v == w)
      || ((out.Done? || out.Failed?) && w.obj.None? && v == Touched(w, o.(ours := true, deleting := false)))
    case AddFinalizer(o) =>
      || (out.Failed? && v == w)
      || ((out.Done? || out.Failed?) && Current(w, o) && !w.obj.value.deleting
          && v == Touched(w, w.obj.value.(ours := true)))
    case DomainApply(_) => v == w.(domain := v.domain) && Completes(out)
    case ApplyStatus(_, _) => StatusWrite(w, out, v)
    case Clusters(stage, _, _) =>
      if stage.Renew? then
        && v == w.(mcp := v.mcp, workload := v.workload)
        && Renewed(w.mcp, v.mcp) && (if workload then Renewed(w.workload, v.workload) else v.workload == w.workload)
        && Completes(out) && (out.Done? ==> !v.mcp.Absent? && (workload ==> !v.workload.Absent?))
      else v == w && (out.Done? || out.Failed?)
  }

  predicate Completes(out: Outcome) {
    out.Done? || out.Failed? || (out.Requeue? && out.after > 0)
  }

  /** The call that follows, given the outcome and the world after the call. */
  function Next(workload: bool, config: Option<int>, pc: Pc, out: Outcome, v: World): Pc {
    match pc
    case Idle => if out.Done? && v.obj.Some? then Loaded(v.obj.value) else Idle
    case Loaded(o) =>
      if config.None? then ReportNoConfig(o) else if o.deleting then CheckMcp(o) else Refetch(o)
    case ReportNoConfig(_) => Idle
    case CheckMcp(o) =>
      if out.Failed? then Idle
      else if Gone(v.mcp) then AccessDelete(o)
      else if workload then CheckWorkload(o) else Clusters(Renew, o, true)
    case CheckWorkload(o) =>
      if out.Failed? then Idle else if Gone(v.workload) then AccessDelete(o) else Clusters(Renew, o, true)
    case DomainDelete(o) => DeleteStatus(o, out)
    case DeleteStatus(o, result) =>
      // a successful patch refreshes the fetched object
      if !result.Done? then Idle else AccessDelete(if out.Done? && v.obj.Some? then v.obj.value else o)
    case AccessDelete(o) => if out.Done? then DropFinalizer(o) else Idle
    case DropFinalizer(_) => Idle
    case Refetch(o) =>
      if out.Failed? then ApplyStatus(o, out)
      else if v.obj.None? then Recreate(o)
      else if v.obj.value.ours then Clusters(Renew, v.obj.value, false)
      else AddFinalizer(v.obj.value)
    case Recreate(o) => AfterPersist(o, out, v)
    case AddFinalizer(o) => AfterPersist(o, out, v)
    case DomainApply(o) => ApplyStatus(o, out)
    case ApplyStatus(_, _) => Idle
    case Clusters(stage, o, teardown) =>
      if !out.Done? then (if teardown then Idle else ApplyStatus(o, out))
      else match stage
        case Renew => Clusters(McpCluster, o, teardown)
        case McpCluster => Clusters(McpSecret, o, teardown)
        case McpSecret => if workload then Clusters(WorkloadCluster, o, teardown) else DomainCall(o, teardown)
        case WorkloadCluster => Clusters(WorkloadSecret, o, teardown)
        case WorkloadSecret => DomainCall(o, teardown)
  }

  function AfterPersist(o: Obj, out: Outcome, v: World): Pc {
    if out.Done? && v.obj.Some? then Clusters(Renew, v.obj.value, false) else ApplyStatus(o, out)
  }

  function DomainCall(o: Obj, teardown: bool): Pc {
    if teardown then DomainDelete(o) else DomainApply(o)
  }

  // ---------------------------------------------------------------- the environment

  /** Acts of users and other controllers.  Nobody else removes our finalizer or
      adds one to an object being deleted, and nobody else deletes an
      AccessRequest or writes domain objects. */
  predicate Outside(workload: bool, w: World, v: World) {
    || (w.obj.None? && v.obj.Some? && !v.obj.value.deleting && v == Touched(w, v.obj.value))   // create
    || (w.obj.Some? && v == Stored(w, w.obj.value.(deleting := true)))                          // delete
    || (w.obj.Some? && !w.obj.value.deleting && v.obj.Some?
        && v == Stored(w, w.obj.value.(foreign := v.obj.value.foreign)))                        // edit
    || (w.obj.Some? && w.obj.value.deleting && v == Stored(w, w.obj.value.(foreign := false)))   // release
    || (w.obj.Some? && v == Touched(w, w.obj.value))                                            // edit
    || AccessProgress(w, v)
    || (v == w.(mcp := v.mcp) && w.mcp.Granted? && v.mcp.Pending?)
    || (v == w.(workload := v.workload) && w.workload.Granted? && v.workload.Pending?)
  }

  /** A live request is granted, or a deleting one disappears. */
  predicate AccessProgress(w: World, v: World) {
    || (v == w.(mcp := v.mcp) && Advances(w.mcp, v.mcp))
    || (v == w.(workload := v.workload) && Advances(w.workload, v.workload))
  }

  predicate Advances(a: Access, b: Access) {
    (a.Pending? && b.Granted?) || (a.Deleting? && b.Absent?)
  }

  datatype Event = Call(out: Outcome) | Settle | Act | Deliver | Restart

  predicate Step(workload: bool, s: State, e: Event, t: State) {
    match e
    case Call(out) =>
      && Effect(workload, s.pc, s.w, out, t.w)
      && t.config == s.config && t.pc == Next(workload, s.config, s.pc, out, t.w)
    case Settle => AccessProgress(s.w, t.w) && t.config == s.config && t.pc == s.pc
    case Act => Outside(workload, s.w, t.w) && t.config == s.config && t.pc == s.pc
    case Deliver => t.w == s.w && t.pc == s.pc
    case Restart => t.w == s.w && t.pc == Idle && t.config == None
  }

  /** Before the controller first runs there is no access and no domain object. */
  predicate Init(s: State) {
    s.w.mcp.Absent? && s.w.workload.Absent? && s.w.domain == {} && s.pc.Idle?
  }

  ghost predicate Linked(workload: bool, s: State, t: State) { exists e :: Step(workload, s, e, t) }

  ghost predicate Run(workload: bool, tr: seq<State>) {
    && tr != [] && Init(tr[0])
    && forall i {:trigger Linked(workload, tr[i - 1], tr[i])} :: 0 < i < |tr| ==> Linked(workload, tr[i - 1], tr[i])
  }

  /** States with the events that lead from one to the next. */
  ghost predicate Stamped(workload: bool, tr: seq<State>, ev: seq<Event>) {
    && |tr| == |ev| + 1 && Init(tr[0])
    && forall i {:trigger Step(workload, tr[i], ev[i], tr[i + 1])} ::
         0 <= i < |ev| ==> Step(workload, tr[i], ev[i], tr[i + 1])
  }

  lemma StampedIsRun(workload: bool, tr: seq<State>, ev: seq<Event>)
    requires Stamped(workload, tr, ev)
    ensures Run(workload, tr)
  {
    forall i | 0 < i < |tr| ensures Linked(workload, tr[i - 1], tr[i]) {
      var j := i - 1;
      assert Step(workload, tr[j], ev[j], tr[j + 1]);
    }
  }

  lemma StampedExtends(workload: bool, tr: seq<State>, ev: seq<Event>, e: Event, t: State)
    requires Stamped(workload, tr, ev) && Step(workload, tr[|tr| - 1], e, t)
    ensures Stamped(workload, tr + [t], ev + [e])
  {
    var tr', ev' := tr + [t], ev + [e];
    forall i | 0 <= i < |ev'| ensures Step(workload, tr'[i], ev'[i], tr'[i + 1]) {
      if i < |ev| { assert Step(workload, tr[i], ev[i], tr[i + 1]); }
    }
  }
}
