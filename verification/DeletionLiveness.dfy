/** Deletion terminates: with a provider config in the cache and finitely many
    faults, every infinite run drops the finalizer of an object being deleted. */
module DeletionLiveness {
  import opened Common
  import opened DeletionProtocol
  import opened DeletionSafety

  function Stages(a: Access): nat {
    match a
    case Pending => 3
    case Granted => 2
    case Deleting => 1
    case Absent => 0
  }

  function AccessStages(w: World): nat { Stages(w.mcp) + Stages(w.workload) }

  /** What an asynchronous teardown still has to remove. */
  predicate Shrinks(w: World, v: World) {
    |v.domain| < |w.domain| || (|v.domain| == |w.domain| && AccessStages(v) < AccessStages(w))
  }

  /** A fault: a failing call, a requeue without progress, or an outside act. */
  predicate Fault(s: State, e: Event, t: State) {
    match e
    case Call(out) => out.Failed? || (out.Requeue? && !Shrinks(s.w, t.w))
    case Settle => false
    case _ => true
  }

  /** Steps left for a pass that started before the deletion. */
  function ApplyRank(pc: Pc): nat {
    match pc
    case Loaded(o) => if o.deleting then 0 else 12
    case Refetch(_) => 11
    case Recreate(_) => 10
    case AddFinalizer(_) => 10
    case Clusters(stage, _, teardown) => if teardown then 0 else 3 + StageRank(stage)
    case DomainApply(_) => 2
    case ApplyStatus(_, _) => 1
    case _ => 0
  }

  function StageRank(stage: Stage): nat {
    match stage
    case Renew => 5
    case McpCluster => 4
    case McpSecret => 3
    case WorkloadCluster => 2
    case WorkloadSecret => 1
  }

  /** Steps left for a teardown pass; a pass that gives up ranks above Idle. */
  function TeardownRank(pc: Pc): nat {
    match pc
    case ReportNoConfig(_) => 40
    case DeleteStatus(_, out) => if out.Done? then 6 else 30
    case Idle => 20
    case Loaded(_) => 19
    case CheckMcp(_) => 18
    case CheckWorkload(_) => 17
    case Clusters(stage, _, _) => 10 + StageRank(stage)
    case DomainDelete(_) => 8
    case AccessDelete(_) => 5
    case DropFinalizer(_) => 4
    case _ => 0
  }

  /** A teardown that may still go on: our finalizer holds a terminating object. */
  predicate Pursuing(s: State) { Holds(s.w) && Terminating(s.w) && s.config.Some? }

  predicate Below(t: State, s: State) {
    || ApplyRank(t.pc) < ApplyRank(s.pc)
    || (ApplyRank(t.pc) == ApplyRank(s.pc)
        && (Shrinks(s.w, t.w)
            || (|t.w.domain| == |s.w.domain| && AccessStages(t.w) == AccessStages(s.w)
                && TeardownRank(t.pc) < TeardownRank(s.pc))))
  }

  lemma FewerElements(a: set<nat>, b: set<nat>)
    requires a <= b
    ensures |a| <= |b| && (|a| == |b| ==> a == b)
  {
    assert |b - a| == |b| - |a|;
    if |a| == |b| { assert b - a == {}; }
  }

  lemma ApplyCallDescends(workload: bool, s: State, out: Outcome, t: State)
    requires Step(workload, s, Call(out), t) && !Fault(s, Call(out), t)
    requires Applying(s.pc) && s.config.Some?
    ensures ApplyRank(t.pc) < ApplyRank(s.pc)
  {
  }

  lemma TeardownCallDescends(workload: bool, s: State, out: Outcome, t: State)
    requires Inv(workload, s) && Step(workload, s, Call(out), t) && !Fault(s, Call(out), t)
    requires !Applying(s.pc) && Pursuing(s) && Pursuing(t)
    ensures Below(t, s)
  {
    if s.pc.DomainDelete? { FewerElements(t.w.domain, s.w.domain); }
  }

  /** Every step that is no fault brings the teardown closer to its end. */
  lemma StepDescends(workload: bool, s: State, e: Event, t: State)
    requires Inv(workload, s) && Step(workload, s, e, t) && !Fault(s, e, t)
    requires Pursuing(s) && Pursuing(t)
    ensures Below(t, s)
  {
    if e.Call? {
      if Applying(s.pc) {
        ApplyCallDescends(workload, s, e.out, t);
      } else {
        TeardownCallDescends(workload, s, e.out, t);
      }
    }
  }

  lemma StaysTerminating(workload: bool, s: State, e: Event, t: State)
    requires Step(workload, s, e, t) && !Fault(s, e, t)
    requires Holds(s.w) && Terminating(s.w) && Holds(t.w)
    ensures Terminating(t.w)
  {
  }

  ghost predicate Endless(workload: bool, f: nat -> State, ev: nat -> Event) {
    Init(f(0)) && forall i: nat :: Step(workload, f(i), ev(i), f(i + 1))
  }

  ghost predicate FaultFreeFrom(f: nat -> State, ev: nat -> Event, n: nat) {
    forall i: nat :: i >= n ==> !Fault(f(i), ev(i), f(i + 1)) && f(i).config.Some?
  }

  lemma {:induction false} EndlessKeeps(workload: bool, f: nat -> State, ev: nat -> Event, i: nat)
    requires Endless(workload, f, ev)
    ensures Inv(workload, f(i))
  {
    if i == 0 {
      InitEstablishes(workload, f(0));
    } else {
      EndlessKeeps(workload, f, ev, i - 1);
      assert Step(workload, f(i - 1), ev(i - 1), f(i - 1 + 1));
      StepKeeps(workload, f(i - 1), ev(i - 1), f(i));
    }
  }

  /** Of an object that is being deleted while our finalizer holds it, the
      finalizer is dropped at some later point `m` of every run whose faults end. */
  lemma {:induction false} DeletionTerminates(workload: bool, f: nat -> State, ev: nat -> Event, n: nat) returns (m: nat)
    requires Endless(workload, f, ev) && FaultFreeFrom(f, ev, n)
    requires Holds(f(n).w) && Terminating(f(n).w)
    ensures m > n && f(m - 1).pc.DropFinalizer? && !Holds(f(m).w) && f(m).w.domain == {} && !AnyAccess(f(m).w)
    decreases ApplyRank(f(n).pc), |f(n).w.domain|, AccessStages(f(n).w), TeardownRank(f(n).pc)
  {
    EndlessKeeps(workload, f, ev, n);
    assert Step(workload, f(n), ev(n), f(n + 1));
    if Holds(f(n + 1).w) {
      StaysTerminating(workload, f(n), ev(n), f(n + 1));
      StepDescends(workload, f(n), ev(n), f(n + 1));
      m := DeletionTerminates(workload, f, ev, n + 1);
    } else {
      m := n + 1;
      EndlessKeeps(workload, f, ev, m);
    }
  }

  // ---------------------------------------------------------------- no dead end

  /** The teardown pass works on the stored version of the object. */
  predicate Fresh(s: State) { TearingDown(s.pc) ==> Current(s.w, s.pc.o) }

  lemma FreshStays(workload: bool, s: State, e: Event, t: State)
    requires Step(workload, s, e, t) && !Fault(s, e, t) && Fresh(s) && !Applying(s.pc)
    requires Pursuing(s) && Pursuing(t)
    ensures Fresh(t) && !Applying(t.pc)
  {
  }

  /** A teardown pass on a fresh object always has a next call that is no fault,
      so the hypothesis of DeletionTerminates never asks for the impossible. */
  lemma CanProceed(workload: bool, s: State) returns (out: Outcome, t: State)
    requires Inv(workload, s) && Pursuing(s) && Fresh(s) && !Applying(s.pc)
    ensures Step(workload, s, Call(out), t) && !Fault(s, Call(out), t)
  {
    out := match s.pc case ReportNoConfig(_) => Skipped case DeleteStatus(_, _) => Skipped case _ => Done;
    var v := match s.pc
      case DomainDelete(_) => s.w.(domain := {})
      case AccessDelete(_) => s.w.(mcp := Absent, workload := Absent)
      case DropFinalizer(_) => Stored(s.w, s.w.obj.value.(ours := false))
      case _ => s.w;
    t := State(v, s.config, Next(workload, s.config, s.pc, out, v));
  }
}
