/** Status values and what the status helpers make of them. */
module StatusModel {

  /** One condition; `transition` is its last transition time. */
  datatype Condition = Condition(
    kind: string, status: bool, observed: int, reason: string, message: string, transition: int)

  datatype Status = Status(
    conditions: seq<Condition>, observed: int, phase: string, configSource: string, configHash: string)

  const READY := "Ready"
  const PROGRESSING := "Progressing"
  const TERMINATING := "Terminating"

  const EMPTY := Status([], 0, "", "", "")

  /** Position of the first condition of a kind, or the length. */
  function Find(cs: seq<Condition>, kind: string): (i: nat)
    ensures i <= |cs| && (i < |cs| ==> cs[i].kind == kind)
    ensures forall j :: 0 <= j < i ==> cs[j].kind != kind
  {
    if cs == [] || cs[0].kind == kind then 0 else 1 + Find(cs[1..], kind)
  }

  /** A known condition takes the new values; its transition time moves only when
      its status does. */
  function Merge(known: Condition, c: Condition, now: int): Condition {
    c.(transition := if known.status == c.status then known.transition else now)
  }

  /** `meta.SetStatusCondition` for a condition without a transition time. */
  function SetCondition(cs: seq<Condition>, c: Condition, now: int): seq<Condition> {
    var i := Find(cs, c.kind);
    if i < |cs| then cs[i := Merge(cs[i], c, now)] else cs + [c.(transition := now)]
  }

  /** What all three helpers do with their own condition values and phase. */
  function Report(s: Status, generation: int, ready: bool, reason: string, message: string, phase: string, now: int): Status {
    s.(conditions := SetCondition(s.conditions, Condition(READY, ready, generation, reason, message, 0), now),
       observed := generation, phase := phase)
  }

  function Progressing(s: Status, generation: int, reason: string, message: string, now: int): Status {
    Report(s, generation, false, reason, message, PROGRESSING, now)
  }

  function Ready(s: Status, generation: int, now: int): Status {
    Report(s, generation, true, "ReconcileSuccess", "Domain Service is ready", READY, now)
  }

  function Terminating(s: Status, generation: int, now: int): Status {
    Report(s, generation, false, "Terminating", "Cleanup in progress", TERMINATING, now)
  }

  // ---------------------------------------------------------------- coherence

  function Count(cs: seq<Condition>, kind: string): nat {
    if cs == [] then 0 else (if cs[0].kind == kind then 1 else 0) + Count(cs[1..], kind)
  }

  /** The conditions of all other kinds, in order. */
  function Others(cs: seq<Condition>, kind: string): seq<Condition> {
    if cs == [] then []
    else (if cs[0].kind == kind then [] else [cs[0]]) + Others(cs[1..], kind)
  }

  /** A status that nobody has reported to, or one whose phase, condition and
      generations tell the same story. */
  ghost predicate Coherent(s: Status, generation: int) {
    && Count(s.conditions, READY) <= 1
    && s.observed <= generation
    && var i := Find(s.conditions, READY);
       if i == |s.conditions| then s.phase == ""
       else
         && s.conditions[i].observed == s.observed
         && s.phase in {READY, PROGRESSING, TERMINATING}
         && (s.phase == READY <==> s.conditions[i].status)
  }

  /** The Ready condition, the generations and the phase that a status shows. */
  predicate Says(s: Status, generation: int, ready: bool, reason: string, phase: string) {
    && s.observed == generation && s.phase == phase
    && exists i :: 0 <= i < |s.conditions| && s.conditions[i].kind == "Ready"
         && (forall j :: 0 <= j < i ==> s.conditions[j].kind != "Ready")
         && s.conditions[i].status == ready && s.conditions[i].observed == generation
         && s.conditions[i].reason == reason
  }

  /** `t` reports on an object of at least this generation whose status was `s`: the
      conditions of other kinds are the same, and so is coherence. */
  ghost predicate Reports(s: Status, t: Status, generation: int) {
    && Others(t.conditions, READY) == Others(s.conditions, READY)
    && forall g :: g >= generation && Coherent(s, g) ==> Coherent(t, g)
  }

  datatype Op =
    | DoProgressing(reason: string, message: string, now: int)
    | DoReady(now: int)
    | DoTerminating(now: int)
    | Bump(delta: nat)

  /** A status and the generation of its object. */
  datatype Versioned = Versioned(status: Status, generation: int)

  function Apply(v: Versioned, op: Op): Versioned {
    match op
    case DoProgressing(reason, message, now) => v.(status := Progressing(v.status, v.generation, reason, message, now))
    case DoReady(now) => v.(status := Ready(v.status, v.generation, now))
    case DoTerminating(now) => v.(status := Terminating(v.status, v.generation, now))
    case Bump(delta) => v.(generation := v.generation + delta)
  }

  function ApplyAll(v: Versioned, ops: seq<Op>): Versioned
    decreases |ops|
  {
    if ops == [] then v else ApplyAll(Apply(v, ops[0]), ops[1..])
  }

  lemma SetConditionSkips(cs: seq<Condition>, c: Condition, now: int)
    requires cs != [] && cs[0].kind != c.kind
    ensures SetCondition(cs, c, now) == [cs[0]] + SetCondition(cs[1..], c, now)
  {
    var i := Find(cs[1..], c.kind);
    assert Find(cs, c.kind) == i + 1;
    assert cs == [cs[0]] + cs[1..];
    if i < |cs| - 1 {
      assert cs[i + 1 := Merge(cs[i + 1], c, now)] == [cs[0]] + cs[1..][i := Merge(cs[i + 1], c, now)];
    }
  }

  lemma SetConditionHits(cs: seq<Condition>, c: Condition, now: int)
    requires cs != [] && cs[0].kind == c.kind
    ensures SetCondition(cs, c, now) == [Merge(cs[0], c, now)] + cs[1..]
  {
  }

  lemma CountsOnAndOthers(known: Condition, cs: seq<Condition>, kind: string)
    ensures Find([known] + cs, kind) == if known.kind == kind then 0 else 1 + Find(cs, kind)
    ensures Count([known] + cs, kind) == (if known.kind == kind then 1 else 0) + Count(cs, kind)
    ensures Others([known] + cs, kind) == (if known.kind == kind then [] else [known]) + Others(cs, kind)
  {
    assert ([known] + cs)[1..] == cs;
  }

  lemma {:induction false} SetConditionFindsIt(cs: seq<Condition>, c: Condition, now: int)
    ensures var out := SetCondition(cs, c, now);
            var i := Find(out, c.kind);
            i < |out| && out[i].status == c.status && out[i].observed == c.observed
            && out[i].reason == c.reason && out[i].message == c.message
    ensures Count(SetCondition(cs, c, now), c.kind) == if Count(cs, c.kind) == 0 then 1 else Count(cs, c.kind)
    ensures Others(SetCondition(cs, c, now), c.kind) == Others(cs, c.kind)
  {
    if cs == [] {
      assert SetCondition(cs, c, now) == [c.(transition := now)] + [];
      CountsOnAndOthers(c.(transition := now), [], c.kind);
    } else if cs[0].kind == c.kind {
      SetConditionHits(cs, c, now);
      CountsOnAndOthers(Merge(cs[0], c, now), cs[1..], c.kind);
    } else {
      SetConditionFindsIt(cs[1..], c, now);
      SetConditionSkips(cs, c, now);
      CountsOnAndOthers(cs[0], SetCondition(cs[1..], c, now), c.kind);
    }
  }

  lemma {:induction false} CountOfUnknown(cs: seq<Condition>, kind: string)
    ensures Find(cs, kind) == |cs| <==> Count(cs, kind) == 0
  {
    if cs != [] { CountOfUnknown(cs[1..], kind); }
  }

  lemma ApplyKeepsCoherent(v: Versioned, op: Op)
    requires Coherent(v.status, v.generation)
    ensures var u := Apply(v, op);
            Coherent(u.status, u.generation) && u.generation >= v.generation
            && Others(u.status.conditions, READY) == Others(v.status.conditions, READY)
  {
    if !op.Bump? {
      CountOfUnknown(v.status.conditions, READY);
      var u := Apply(v, op).status;
      var i := Find(u.conditions, READY);
      var c := u.conditions;
      match op {
        case DoProgressing(reason, message, now) =>
          SetConditionFindsIt(v.status.conditions, Condition(READY, false, v.generation, reason, message, 0), now);
        case DoReady(now) =>
          SetConditionFindsIt(v.status.conditions,
            Condition(READY, true, v.generation, "ReconcileSuccess", "Domain Service is ready", 0), now);
        case DoTerminating(now) =>
          SetConditionFindsIt(v.status.conditions,
            Condition(READY, false, v.generation, "Terminating", "Cleanup in progress", 0), now);
      }
    }
  }

  /** After any helper calls and generation bumps there is at most one Ready
      condition, the phase is Ready exactly when it is true, the observed
      generations agree and never run ahead, and no other condition changed. */
  lemma {:induction false} StatusStaysCoherent(v: Versioned, ops: seq<Op>)
    requires Coherent(v.status, v.generation)
    ensures var u := ApplyAll(v, ops);
            Coherent(u.status, u.generation)
            && Others(u.status.conditions, READY) == Others(v.status.conditions, READY)
    decreases |ops|
  {
    if ops != [] {
      ApplyKeepsCoherent(v, ops[0]);
      StatusStaysCoherent(Apply(v, ops[0]), ops[1..]);
    }
  }

  // ---------------------------------------------------------------- what one report says

  lemma ReportSays(s: Status, generation: int, ready: bool, reason: string, message: string, phase: string, now: int)
    requires phase == READY || phase == PROGRESSING || phase == TERMINATING
    requires phase == READY <==> ready
    ensures var t := Report(s, generation, ready, reason, message, phase, now);
            Says(t, generation, ready, reason, phase) && Reports(s, t, generation)
            && (t.configSource, t.configHash) == (s.configSource, s.configHash)
  {
    var c := Condition(READY, ready, generation, reason, message, 0);
    var t := Report(s, generation, ready, reason, message, phase, now);
    SetConditionFindsIt(s.conditions, c, now);
    assert t.conditions[Find(t.conditions, READY)].kind == "Ready";
    forall g | g >= generation && Coherent(s, g) ensures Coherent(t, g) {
      CountOfUnknown(s.conditions, READY);
    }
  }

  /** The three helpers, in words: the phase, a Ready condition that is true only
      for the second, the generation of the object, and nothing else. */
  lemma HelpersSay(s: Status, generation: int, reason: string, message: string, now: int)
    ensures var t := Progressing(s, generation, reason, message, now);
            Says(t, generation, false, reason, "Progressing") && Reports(s, t, generation)
            && (t.configSource, t.configHash) == (s.configSource, s.configHash)
    ensures var t := Ready(s, generation, now);
            Says(t, generation, true, "ReconcileSuccess", "Ready") && Reports(s, t, generation)
            && (t.configSource, t.configHash) == (s.configSource, s.configHash)
    ensures var t := Terminating(s, generation, now);
            Says(t, generation, false, "Terminating", "Terminating") && Reports(s, t, generation)
            && (t.configSource, t.configHash) == (s.configSource, s.configHash)
  {
    ReportSays(s, generation, false, reason, message, PROGRESSING, now);
    ReportSays(s, generation, true, "ReconcileSuccess", "Domain Service is ready", READY, now);
    ReportSays(s, generation, false, "Terminating", "Cleanup in progress", TERMINATING, now);
  }

  lemma ReportsInTurn(s: Status, t: Status, u: Status, generation: int)
    requires Reports(s, t, generation) && Reports(t, u, generation)
    ensures Reports(s, u, generation)
  {
  }

  /** The configuration fields play no part in the story. */
  lemma ReportsWithConfig(s: Status, t: Status, generation: int, source: string, hash: string)
    requires Reports(s, t, generation)
    ensures Reports(s, t.(configSource := source, configHash := hash), generation)
  {
    var u := t.(configSource := source, configHash := hash);
    forall g | g >= generation && Coherent(s, g) ensures Coherent(u, g) {
      assert Coherent(t, g);
    }
  }

  /** The transition time moves exactly when the status of a known condition does. */
  lemma TransitionMovesWithStatus(cs: seq<Condition>, c: Condition, now: int)
    ensures var i := Find(cs, c.kind);
            SetCondition(cs, c, now)[i].transition == if i < |cs| && cs[i].status == c.status then cs[i].transition else now
  {
  }
}
