/** The generic reconciler, call by call.  Its ghost trace, with the events that
    made it, is a run of the deletion protocol, so everything proved about runs
    holds of every pass. */
module SPReconcilers {
  import opened Common
  import opened DeletionProtocol
  import opened DeletionSafety

  /** `ctrl.Result` with the error it is returned with. */
  datatype Result = Result(after: int, err: bool)

  predicate SameCall(a: Pc, b: Pc) {
    a == b || (a.Clusters? && b.Clusters? && a.stage == b.stage && a.o == b.o)
  }

  /** Where a pass goes when `clusters` fails or has to wait. */
  function GivenUp(obj: Obj, teardown: bool, out: Outcome): Pc {
    if teardown then Idle else ApplyStatus(obj, out)
  }

  function AfterRead(workload: bool, stage: Stage, obj: Obj, teardown: bool): Pc
    requires !stage.Renew?
  {
    match stage
    case McpCluster => Clusters(McpSecret, obj, teardown)
    case McpSecret => if workload then Clusters(WorkloadCluster, obj, teardown) else DomainCall(obj, teardown)
    case WorkloadCluster => Clusters(WorkloadSecret, obj, teardown)
    case WorkloadSecret => DomainCall(obj, teardown)
  }

  /** The result of a call that is not done: a requeue, or an error. */
  function Stop(out: Outcome): Result {
    if out.Requeue? then Result(out.after, false) else Result(0, true)
  }

  /** The outcome that a result passes on, if it asks to come back. */
  function Verdict(res: Result): Outcome { if res.err || res.after <= 0 then Done else Requeue(res.after) }

  /** Every call may fail without effect, except looking at the cached config. */
  lemma FailureIsPossible(workload: bool, at: Pc, w: World)
    ensures Effect(workload, at, w, if at.Loaded? then Done else Failed, w)
  {
  }

  lemma SameCallSameEffect(workload: bool, a: Pc, b: Pc, w: World, out: Outcome, v: World)
    requires SameCall(a, b)
    ensures Effect(workload, a, w, out, v) == Effect(workload, b, w, out, v)
  {
  }

  class SPReconciler {
    const workload: bool
    var w: World               // what API calls reach
    var config: Option<int>    // cached provider config
    ghost var pc: Pc           // the next call the protocol allows
    ghost var trace: seq<State>
    ghost var events: seq<Event>

    ghost predicate Valid()
      reads this
    {
      Stamped(workload, trace, events) && trace[|trace| - 1] == State(w, config, pc)
    }

    ghost predicate Grown(tr: seq<State>, ev: seq<Event>)
      reads this
    {
      Valid() && tr <= trace && ev <= events
    }

    /** Since event `n` a call has had this outcome. */
    ghost predicate Told(n: nat, out: Outcome)
      reads this
    {
      exists s :: n <= s < |events| && events[s] == Event.Call(out)
    }

    /** Since event `n` the domain service's `CreateOrUpdate` has been called and is
        done. */
    ghost predicate Applied(n: nat)
      reads this
      requires |events| < |trace|
    {
      exists s :: n <= s < |events| && trace[s].pc.DomainApply? && events[s] == Event.Call(Done)
    }

    /** Since event `n` this stage of `clusters` is done. */
    ghost predicate Passed(n: nat, stage: Stage)
      reads this
      requires |events| < |trace|
    {
      exists s :: n <= s < |events| && trace[s].pc.Clusters? && trace[s].pc.stage == stage && events[s] == Event.Call(Done)
    }

    ghost predicate PassedAll(n: nat)
      reads this
      requires |events| < |trace|
    {
      && Passed(n, Renew) && Passed(n, McpCluster) && Passed(n, McpSecret)
      && (workload ==> Passed(n, WorkloadCluster) && Passed(n, WorkloadSecret))
    }

    /** Since event `n` a status has been tried to publish. */
    ghost predicate Reported(n: nat)
      reads this
      requires |events| < |trace|
    {
      exists s :: n <= s < |events| && events[s].Call?
        && (trace[s].pc.ReportNoConfig? || trace[s].pc.DeleteStatus? || trace[s].pc.ApplyStatus?)
    }

    /** No call since event `n` has asked to come back, except as `out` does. */
    ghost predicate OnlyAsks(n: nat, out: Outcome)
      reads this
    {
      forall s :: n <= s < |events| && events[s].Call? && events[s].out.Requeue? ==> events[s].out == out
    }

    /** Since state `n` a pass has loaded this object and this cached config. */
    ghost predicate Loads(n: nat, obj: Obj, c: Option<int>)
      reads this
    {
      exists s :: n <= s < |trace| && trace[s].pc == Loaded(obj) && trace[s].config == c
    }

    /** A fresh process next to an object nobody has reconciled yet. */
    constructor (workload: bool, obj: Option<Obj>, clock: nat)
      ensures Valid() && pc.Idle? && config.None? && this.workload == workload
    {
      this.workload := workload;
      w := World(obj, Absent, Absent, {}, clock);
      config := None;
      pc := Idle;
      trace := [State(World(obj, Absent, Absent, {}, clock), None, Idle)];
      events := [];
    }

    lemma InvNow()
      requires Valid()
      ensures Inv(workload, State(w, config, pc))
    {
      StampedIsRun(workload, trace, events);
      RunKeeps(workload, trace, |trace| - 1);
    }

    /** Whatever else may happen before a call takes effect. */
    method Environment()
      requires Valid()
      modifies this
      ensures Grown(old(trace), old(events)) && pc == old(pc)
      ensures forall s :: |old(events)| <= s < |events| ==> !events[s].Call?
    {
      var steps: nat := *;
      while steps > 0
        invariant Grown(old(trace), old(events)) && pc == old(pc)
        invariant forall s :: |old(events)| <= s < |events| ==> !events[s].Call?
      {
        var v: World := *;
        var c: Option<int> := *;
        if v == w {
          StampedExtends(workload, trace, events, Deliver, State(w, c, pc));
          config := c;
          trace, events := trace + [State(w, config, pc)], events + [Deliver];
        } else if Outside(workload, w, v) {
          StampedExtends(workload, trace, events, Act, State(v, config, pc));
          w := v;
          trace, events := trace + [State(w, config, pc)], events + [Act];
        }
        steps := steps - 1;
      }
    }

    /** Any outcome and effect that `Effect` allows. */
    method Choose(at: Pc) returns (out: Outcome, v: World)
      ensures Effect(workload, at, w, out, v)
    {
      v := *;
      out := *;
      if !Effect(workload, at, w, out, v) {
        FailureIsPossible(workload, at, w);
        v := w;
        out := if at.Loaded? then Done else Failed;
      }
    }

    /** The step of the protocol for this outcome. */
    method Take(out: Outcome, v: World)
      requires Valid() && Effect(workload, pc, w, out, v)
      modifies this
      ensures Grown(old(trace), old(events)) && |trace| == |old(trace)| + 1
      ensures events == old(events) + [Event.Call(out)]
      ensures w == v && config == old(config) && pc == Next(workload, config, old(pc), out, w)
    {
      ghost var next := Next(workload, config, pc, out, v);
      StampedExtends(workload, trace, events, Event.Call(out), State(v, config, next));
      w := v;
      pc := next;
      trace, events := trace + [State(w, config, pc)], events + [Event.Call(out)];
    }

    /** One API call. */
    method Call(at: Pc) returns (out: Outcome)
      requires Valid() && SameCall(at, pc)
      modifies this
      ensures Grown(old(trace), old(events)) && |trace| > |old(trace)|
      ensures |events| > |old(events)| && events[|events| - 1] == Event.Call(out) && OnlyAsks(|old(events)|, out)
      ensures Effect(workload, at, trace[|trace| - 2].w, out, w)
      ensures pc == Next(workload, config, old(pc), out, w)
      ensures trace[|trace| - 2].config == config && trace[|trace| - 2].pc == old(pc)
    {
      Environment();
      var v;
      out, v := Choose(at);
      SameCallSameEffect(workload, at, pc, w, out, v);
      ghost var before := w;
      Take(out, v);
      assert trace[|trace| - 2].w == before;
    }

    /** The process dies and starts again without any memory of the pass. */
    method Restart()
      requires Valid()
      modifies this
      ensures Grown(old(trace), old(events)) && pc.Idle? && w == old(w)
    {
      StampedExtends(workload, trace, events, Event.Restart, State(w, None, Idle));
      pc := Idle;
      config := None;
      trace, events := trace + [State(w, config, pc)], events + [Event.Restart];
    }

    // -------------------------------------------------------------- the pass

    method Get() returns (found: Option<Obj>, err: bool)
      requires Valid() && pc.Idle?
      modifies this
      ensures Grown(old(trace), old(events))
      ensures err ==> pc.Idle? && Told(|old(events)|, Failed)
      ensures OnlyAsks(|old(events)|, Done)
      ensures !err ==> found == w.obj && pc == (if found.Some? then Loaded(found.value) else Idle)
    {
      var out := Call(Idle);
      err := out.Failed?;
      found := w.obj;
    }

    method LoadConfig(obj: Obj) returns (c: Option<int>)
      requires Valid() && pc == Loaded(obj)
      modifies this
      ensures OnlyAsks(|old(events)|, Done)
      ensures Grown(old(trace), old(events)) && c == config && Loads(|old(trace)| - 1, obj, c)
      ensures pc == if c.None? then ReportNoConfig(obj) else if obj.deleting then CheckMcp(obj) else Refetch(obj)
    {
      var out := Call(Loaded(obj));
      c := config;
      assert trace[|trace| - 2].pc == Loaded(obj);
    }

    /** `updateStatus`: a patch that is skipped when nothing changed and whose
        failure is only logged.  A successful patch refreshes the object. */
    method UpdateStatus(at: Pc, obj: Obj) returns (refreshed: Obj)
      requires Valid() && pc == at
      requires (at.ReportNoConfig? || at.DeleteStatus? || at.ApplyStatus?) && at.o == obj
      modifies this
      ensures Grown(old(trace), old(events))
      ensures pc == if at.DeleteStatus? && at.out.Done? then AccessDelete(refreshed) else Idle
      ensures Reported(|old(events)|) && OnlyAsks(|old(events)|, Done)
    {
      var out := Call(at);
      refreshed := if out.Done? && w.obj.Some? then w.obj.value else obj;
    }

    /** `Reconcile` of a generic service provider object.  `seen` and `used` are
        the object and the provider config this pass has loaded.  An error has been
        reported by a call, or there is no config; to come back is what a call
        asked for, or what the poll interval says. */
    method Reconcile() returns (res: Result, ghost seen: Option<Obj>, ghost used: Option<int>)
      requires Valid() && pc.Idle?
      modifies this
      ensures Grown(old(trace), old(events)) && pc.Idle?
      ensures seen.None? && !res.err ==> w.obj.None? && res.after == 0
      ensures seen.Some? ==> Loads(|old(trace)|, seen.value, used)
      ensures res.err ==> Told(|old(events)|, Failed) || (seen.Some? && used.None?)
      ensures seen.Some? && used.None? ==> res.err
      ensures !res.err && seen.Some? ==> res.after == used.value || Told(|old(events)|, Requeue(res.after))
      ensures !res.err && seen.Some? && used.value > 0 ==> res.after > 0
      ensures OnlyAsks(|old(events)|, if res.err then Done else Requeue(res.after))
      ensures seen.Some? && (used.None? || !seen.value.deleting) ==> Reported(|old(events)|)
      ensures !res.err && seen.Some? && OnlyAsks(|old(events)|, Done) ==>
                && res.after == used.value
                && if seen.value.deleting then !Holds(w) && w.domain == {} && !AnyAccess(w)
                   else PassedAll(|old(events)|) && Applied(|old(events)|)
    {
      used := None;
      var found, failed := Get();
      if failed || found.None? {
        seen := None;
        return Result(0, failed), seen, used;
      }
      var obj := found.value;
      seen := found;
      var providerConfig := LoadConfig(obj);
      used := providerConfig;
      if providerConfig.None? {
        var _ := UpdateStatus(ReportNoConfig(obj), obj);
        return Result(0, true), seen, used;
      }
      res := DeleteOrApply(obj);
      if res.err || res.after > 0 {
        return res, seen, used;
      }
      return Result(providerConfig.value, false), seen, used;
    }

    /** The part of a pass that does the work. */
    method DeleteOrApply(obj: Obj) returns (res: Result)
      requires Valid() && pc == (if obj.deleting then CheckMcp(obj) else Refetch(obj))
      modifies this
      ensures Grown(old(trace), old(events)) && pc.Idle? && res.after >= 0
      ensures res.err ==> Told(|old(events)|, Failed)
      ensures !res.err && res.after > 0 ==> Told(|old(events)|, Requeue(res.after))
      ensures OnlyAsks(|old(events)|, Verdict(res))
      ensures !obj.deleting ==> Reported(|old(events)|)
      ensures !res.err && res.after == 0 ==>
                if obj.deleting then !Holds(w) && w.domain == {} && !AnyAccess(w)
                else PassedAll(|old(events)|) && Applied(|old(events)|)
    {
      if obj.deleting {
        res := Delete(obj);
      } else {
        var at, out := CreateOrUpdate(obj);
        var _ := UpdateStatus(ApplyStatus(at, out), at);
        res := if out.Done? then Result(0, false) else Stop(out);
      }
    }

    /** `areAccessRequestsInDeletion`: true when any required request is missing
        or deleting. */
    method AreAccessRequestsInDeletion(obj: Obj) returns (inDeletion: bool, err: bool)
      requires Valid() && pc == CheckMcp(obj)
      modifies this
      ensures Grown(old(trace), old(events))
      ensures pc == if err then Idle else if inDeletion then AccessDelete(obj) else Clusters(Renew, obj, true)
      ensures (err ==> Told(|old(events)|, Failed)) && OnlyAsks(|old(events)|, Done)
      ensures !err && inDeletion ==> w.domain == {}
      ensures !err && !inDeletion ==> AllLive(workload, w)
    {
      var out := Call(CheckMcp(obj));
      if !out.Failed? && Gone(w.mcp) {
        inDeletion, err := true, false;
      } else if out.Failed? {
        inDeletion, err := false, true;
      } else if workload {
        out := Call(CheckWorkload(obj));
        inDeletion, err := !out.Failed? && Gone(w.workload), out.Failed?;
      } else {
        inDeletion, err := false, false;
      }
      InvNow();
    }

    /** The access provider's `Reconcile`: it asks for access or waits for it. */
    method RenewAccess(obj: Obj, ghost teardown: bool) returns (out: Outcome)
      requires Valid() && pc == Clusters(Renew, obj, teardown)
      modifies this
      ensures Grown(old(trace), old(events)) && Completes(out) && Told(|old(events)|, out) && OnlyAsks(|old(events)|, out)
      ensures out.Done? ==> Passed(|old(events)|, Renew)
      ensures pc == if out.Done? then Clusters(McpCluster, obj, teardown) else GivenUp(obj, teardown, out)
    {
      out := Call(Clusters(Renew, obj, false));
    }

    /** Fetches a cluster or the secret of its AccessRequest. */
    method ReadCluster(stage: Stage, obj: Obj, ghost teardown: bool) returns (out: Outcome)
      requires Valid() && pc == Clusters(stage, obj, teardown) && !stage.Renew?
      modifies this
      ensures Grown(old(trace), old(events)) && (out.Done? || out.Failed?) && Told(|old(events)|, out) && OnlyAsks(|old(events)|, out)
      ensures out.Done? ==> Passed(|old(events)|, stage)
      ensures pc == if out.Failed? then GivenUp(obj, teardown, out) else AfterRead(workload, stage, obj, teardown)
    {
      out := Call(Clusters(stage, obj, false));
    }

    /** Fetches a cluster and then its secret. */
    method ReadClusterAndSecret(cluster: Stage, secret: Stage, obj: Obj, ghost teardown: bool) returns (out: Outcome)
      requires Valid() && pc == Clusters(cluster, obj, teardown)
      requires (cluster, secret) == (McpCluster, McpSecret) || (cluster, secret) == (WorkloadCluster, WorkloadSecret)
      modifies this
      ensures Grown(old(trace), old(events)) && (out.Done? || out.Failed?) && Told(|old(events)|, out) && OnlyAsks(|old(events)|, out)
      ensures out.Done? ==> Passed(|old(events)|, cluster) && Passed(|old(events)|, secret)
      ensures pc == if out.Failed? then GivenUp(obj, teardown, out) else AfterRead(workload, secret, obj, teardown)
    {
      out := ReadCluster(cluster, obj, teardown);
      if out.Done? {
        out := ReadCluster(secret, obj, teardown);
      }
    }

    /** `clusters`: renews access, then reads clusters and secrets. */
    method GetClusters(obj: Obj, ghost teardown: bool) returns (out: Outcome)
      requires Valid() && pc == Clusters(Renew, obj, teardown)
      modifies this
      ensures Grown(old(trace), old(events)) && Completes(out) && Told(|old(events)|, out) && OnlyAsks(|old(events)|, out)
      ensures out.Done? ==> PassedAll(|old(events)|)
      ensures pc == if out.Done? then DomainCall(obj, teardown) else GivenUp(obj, teardown, out)
    {
      out := RenewAccess(obj, teardown);
      if !out.Done? {
        return;
      }
      out := ReadClusterAndSecret(McpCluster, McpSecret, obj, teardown);
      if out.Done? && workload {
        out := ReadClusterAndSecret(WorkloadCluster, WorkloadSecret, obj, teardown);
      }
    }

    /** The domain service's `Delete`, whose clusters are still accessible. */
    method DeleteDomain(obj: Obj) returns (out: Outcome)
      requires Valid() && pc == DomainDelete(obj)
      modifies this
      ensures Grown(old(trace), old(events)) && Completes(out) && pc == DeleteStatus(obj, out)
      ensures Told(|old(events)|, out) && OnlyAsks(|old(events)|, out)
      ensures AllLive(workload, trace[|trace| - 2].w)
    {
      out := Call(DomainDelete(obj));
      StampedIsRun(workload, trace, events);
      RunKeeps(workload, trace, |trace| - 2);
    }

    /** The access provider's `ReconcileDelete`. */
    method WithdrawAccess(obj: Obj) returns (out: Outcome)
      requires Valid() && pc == AccessDelete(obj)
      modifies this
      ensures Grown(old(trace), old(events)) && Completes(out) && Told(|old(events)|, out) && OnlyAsks(|old(events)|, out)
      ensures pc == if out.Done? then DropFinalizer(obj) else Idle
    {
      out := Call(AccessDelete(obj));
    }

    /** The update that persists the object without our finalizer. */
    method RemoveFinalizer(obj: Obj) returns (err: bool)
      requires Valid() && pc == DropFinalizer(obj)
      modifies this
      ensures Grown(old(trace), old(events)) && pc.Idle?
      ensures (err ==> Told(|old(events)|, Failed)) && OnlyAsks(|old(events)|, Done)
      ensures !err ==> !Holds(w) && w.domain == {} && !AnyAccess(w)
    {
      var out := Call(DropFinalizer(obj));
      err := out.Failed?;
      StampedIsRun(workload, trace, events);
      RunKeeps(workload, trace, |trace| - 2);
    }

    /** `delete`: a pass that ends without error and without requeue has dropped
        the finalizer with nothing left behind it. */
    method Delete(fetched: Obj) returns (res: Result)
      requires Valid() && pc == CheckMcp(fetched)
      modifies this
      ensures Grown(old(trace), old(events)) && pc.Idle? && res.after >= 0
      ensures !res.err && res.after == 0 ==> !Holds(w) && w.domain == {} && !AnyAccess(w)
      ensures res.err ==> Told(|old(events)|, Failed)
      ensures !res.err && res.after > 0 ==> Told(|old(events)|, Requeue(res.after))
      ensures OnlyAsks(|old(events)|, Verdict(res))
    {
      var obj := fetched;
      var inDeletion, err := AreAccessRequestsInDeletion(obj);
      if err {
        return Result(0, true);
      }
      if !inDeletion {
        var out;
        obj, out := TeardownDomain(obj);
        if !out.Done? {
          return Stop(out);
        }
      }
      res := DropAccess(obj);
    }

    /** The domain's part of `delete`. */
    method TeardownDomain(fetched: Obj) returns (obj: Obj, out: Outcome)
      requires Valid() && pc == Clusters(Renew, fetched, true)
      modifies this
      ensures Grown(old(trace), old(events)) && Completes(out) && Told(|old(events)|, out) && OnlyAsks(|old(events)|, out)
      ensures pc == if out.Done? then AccessDelete(obj) else Idle
    {
      obj := fetched;
      out := GetClusters(obj, true);
      if out.Done? {
        out := DeleteDomain(obj);
        obj := UpdateStatus(DeleteStatus(obj, out), obj);
      }
    }

    /** The part of `delete` that follows it. */
    method DropAccess(obj: Obj) returns (res: Result)
      requires Valid() && pc == AccessDelete(obj)
      modifies this
      ensures Grown(old(trace), old(events)) && pc.Idle? && res.after >= 0
      ensures !res.err && res.after == 0 ==> !Holds(w) && w.domain == {} && !AnyAccess(w)
      ensures res.err ==> Told(|old(events)|, Failed)
      ensures !res.err && res.after > 0 ==> Told(|old(events)|, Requeue(res.after))
      ensures OnlyAsks(|old(events)|, Verdict(res))
    {
      var out := WithdrawAccess(obj);
      if !out.Done? {
        return Stop(out);
      }
      var err := RemoveFinalizer(obj);
      return Result(0, err);
    }

    /** `CreateOrUpdate` of the object itself, with our finalizer. */
    method PersistFinalizer(fetched: Obj) returns (obj: Obj, out: Outcome)
      requires Valid() && pc == Refetch(fetched)
      modifies this
      ensures Grown(old(trace), old(events)) && (out.Done? || out.Failed?) && Told(|old(events)|, out) && OnlyAsks(|old(events)|, out)
      ensures out.Failed? ==> pc == ApplyStatus(obj, out)
      ensures out.Done? ==> pc == Clusters(Renew, obj, false) && w.obj == Some(obj) && obj.ours
    {
      obj := fetched;
      out := Call(Refetch(obj));
      if out.Failed? {
        return;
      }
      if w.obj.None? {
        out := Call(Recreate(obj));
      } else {
        obj := w.obj.value;
        if !obj.ours {
          out := Call(AddFinalizer(obj));
        }
      }
      if out.Done? {
        obj := w.obj.value;
      }
    }

    /** `createOrUpdate`: persists the finalizer before anything else. */
    method CreateOrUpdate(fetched: Obj) returns (obj: Obj, out: Outcome)
      requires Valid() && pc == Refetch(fetched)
      modifies this
      ensures Grown(old(trace), old(events)) && pc == ApplyStatus(obj, out) && Completes(out)
      ensures Told(|old(events)|, out) && OnlyAsks(|old(events)|, out)
      ensures out.Done? ==> PassedAll(|old(events)|) && Applied(|old(events)|)
    {
      obj, out := PersistFinalizer(fetched);
      if out.Done? {
        out := GetClusters(obj, false);
      }
      if out.Done? {
        out := Call(DomainApply(obj));
      }
    }
  }
}
