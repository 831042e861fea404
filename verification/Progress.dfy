/** Why a restore gets there, and exactly which inputs let it. */
module Progress {
  import opened Objects
  import opened Instructions
  import opened Protocol
  import opened Safety
  import opened Guarantees

  // ---- A measure every effective step decreases -----------------------------------------

  function Unless(done: bool): int { if done then 0 else 1 }

  /** The plan writes and acknowledgements a machine still needs. */
  function Needs(c: Scope, early: bool, k: Key, n: Node): int {
    var later := if c.init == Some(k) then 4 else 2;
    if early then
      if PlanOf(n) == Some(Kill()) then later + Unless(SumOf(n) == HexSha(Kill())) else later + 2
    else if PlanOf(n) == Some(Kill()) then later
    else if PlanOf(n) == Some(Recover(c)) then 2 + Unless(SumOf(n) == HexSha(Recover(c)))
    else if PlanOf(n) == Some(Boot()) then Unless(SumOf(n) == HexSha(Boot()))
    else Unless(SumOf(n) == HexSha(Join(c)))
  }

  function NeedsMap(c: Scope, s: State): map<Key, int> {
    map k | k in s.nodes :: Needs(c, Early(s.restore.status.phase), k, s.nodes[k])
  }

  function Measure(c: Scope, s: State): int
    requires forall k :: k in c.keys ==> k in s.nodes
  {
    Total(c.keys, NeedsMap(c, s)) + 4 - Rank(s.restore.status.phase)
  }

  /** A step that brings the restore closer to its end. */
  predicate Effective(c: Scope, s: State, e: Event) {
    match e
    case WritePlan(k, p) => true
    case Persist(status) => true
    case Agent(k, a) =>
      && a == Report && k in c.keys && k in s.nodes && s.nodes[k].work.Some?
      && PlanOf(s.nodes[k]) == Some(s.nodes[k].work.value.plan)
      && (Early(s.restore.status.phase) ==> PlanOf(s.nodes[k]) == Some(Kill()))
    case _ => false
  }

  lemma {:induction false} TotalIsNatural(keys: seq<Key>, w: map<Key, int>)
    requires forall k :: k in keys ==> k in w && w[k] >= 0
    ensures Total(keys, w) >= 0
  {
    if keys != [] {
      TotalIsNatural(keys[1..], w);
    }
  }

  lemma MeasureIsNatural(c: Scope, s: State)
    requires forall k :: k in c.keys ==> k in s.nodes
    ensures Measure(c, s) >= 0
  {
    TotalIsNatural(c.keys, NeedsMap(c, s));
  }

  lemma ActNeeds(c: Scope, s: State, k: Key, a: Act)
    requires Inv(c, s) && k in c.keys && CanAct(s.nodes[k], a)
    ensures var early := Early(s.restore.status.phase);
            var before, after := Needs(c, early, k, s.nodes[k]), Needs(c, early, k, AfterAct(s.nodes[k], a));
            if Effective(c, s, Agent(k, a)) then after < before else after == before
  {
    PlansDiffer(c);
    assert NodeInv(c, s, k);
  }

  lemma WriteNeeds(c: Scope, s: State, k: Key, p: Plan)
    requires Inv(c, s) && Enabled(true, c, s, WritePlan(k, p))
    ensures Needs(c, Early(s.restore.status.phase), k, AfterWrite(s.nodes[k], p))
          < Needs(c, Early(s.restore.status.phase), k, s.nodes[k])
  {
    PlansDiffer(c);
    assert NodeInv(c, s, k);
  }

  lemma PersistNeeds(c: Scope, s: State, status: RestoreStatus)
    requires Inv(c, s) && Enabled(true, c, s, Persist(status))
    ensures Total(c.keys, NeedsMap(c, Effect(s, Persist(status)))) == Total(c.keys, NeedsMap(c, s))
  {
    PlansDiffer(c);
    var t := Effect(s, Persist(status));
    forall k | k in c.keys ensures NeedsMap(c, t)[k] == NeedsMap(c, s)[k] {
      assert NodeInv(c, s, k);
    }
    TotalAgrees(c.keys, NeedsMap(c, t), NeedsMap(c, s));
  }

  lemma NodeStepMeasure(c: Scope, s: State, k: Key, n: Node)
    requires WellFormed(c) && k in c.keys && (forall j :: j in c.keys ==> j in s.nodes)
    ensures Measure(c, s.(nodes := s.nodes[k := n]))
         == Measure(c, s) - NeedsMap(c, s)[k] + Needs(c, Early(s.restore.status.phase), k, n)
  {
    var w := NeedsMap(c, s);
    var v := Needs(c, Early(s.restore.status.phase), k, n);
    assert NeedsMap(c, s.(nodes := s.nodes[k := n])) == w[k := v];
    TotalUpdate(c.keys, w, k, v);
  }

  lemma QuietStepMeasure(c: Scope, s: State, t: State)
    requires (forall k :: k in c.keys ==> k in s.nodes && k in t.nodes && s.nodes[k] == t.nodes[k])
    requires s.restore.status == t.restore.status
    ensures Measure(c, t) == Measure(c, s)
  {
    TotalAgrees(c.keys, NeedsMap(c, s), NeedsMap(c, t));
  }

  /** Every effective step decreases the measure and no step increases it, so a restore
      cannot go round in circles: retries and aborted passes undo nothing. */
  lemma StepMeasure(c: Scope, s: State, e: Event)
    requires Inv(c, s) && Enabled(true, c, s, e)
    ensures forall k :: k in c.keys ==> k in Effect(s, e).nodes
    ensures Effective(c, s, e) ==> Measure(c, Effect(s, e)) < Measure(c, s)
    ensures !Effective(c, s, e) ==> Measure(c, Effect(s, e)) == Measure(c, s)
  {
    match e
    case Agent(k, a) =>
      if k in c.keys {
        ActNeeds(c, s, k, a);
        NodeStepMeasure(c, s, k, AfterAct(s.nodes[k], a));
      } else {
        QuietStepMeasure(c, s, Effect(s, e));
      }
    case WritePlan(k, p) =>
      WriteNeeds(c, s, k, p);
      NodeStepMeasure(c, s, k, AfterWrite(s.nodes[k], p));
    case Persist(status) => PersistNeeds(c, s, status);
    case _ => QuietStepMeasure(c, s, Effect(s, e));
  }

  function EffectiveSteps(c: Scope, t: Trace): nat {
    match t
    case Begin(s) => 0
    case Then(before, e) => EffectiveSteps(c, before) + (if Effective(c, Last(before), e) then 1 else 0)
  }

  lemma {:induction false} RunMeasure(c: Scope, t: Trace, start: State)
    requires IsRun(true, c, t) && Extends(Begin(start), t)
    ensures forall k :: k in c.keys ==> k in start.nodes && k in Last(t).nodes
    ensures EffectiveSteps(c, t) + Measure(c, Last(t)) <= Measure(c, start)
    decreases t
  {
    match t
    case Begin(s) =>
    case Then(before, e) =>
      RunMeasure(c, before, start);
      RunKeepsInv(c, before);
      StepMeasure(c, Last(before), e);
  }

  lemma FirstNeeds(c: Scope, s: State)
    requires Initial(c, s)
    ensures Measure(c, s) <= 4 * |c.keys| + 6
  {
    var w := NeedsMap(c, s);
    TotalBound(c.keys, w, c.init, 4, 2);
  }

  /** A whole restore of n machines takes at most 4n + 6 effective steps. */
  lemma BoundedEffort(c: Scope, t: Trace, start: State)
    requires IsRun(true, c, t) && Extends(Begin(start), t) && Initial(c, start)
    ensures EffectiveSteps(c, t) <= 4 * |c.keys| + 6
  {
    RunMeasure(c, t, start);
    MeasureIsNatural(c, Last(t));
    FirstNeeds(c, start);
  }

  // ---- Which inputs let it finish ------------------------------------------------------

  /** Without a listed machine for the backup, a location or an address the restore still
      shuts every machine down, and then leaves the paused cluster that way for good. */
  lemma InvalidInputsStrand(c: Scope, t: Trace)
    requires IsRun(true, c, t) && !ValidInputs(c) && !Early(Last(t).restore.status.phase)
    ensures Last(t).restore.status.phase != Finished && Last(t).paused
    ensures forall k :: k in c.keys ==> k in Last(t).nodes && !Last(t).nodes[k].host.running
  {
    RunKeepsInv(c, t);
    PlansDiffer(c);
    if c.init.Some? {
      assert NodeInv(c, Last(t), c.init.value);
    }
    forall k | k in c.keys ensures k in Last(t).nodes && !Last(t).nodes[k].host.running {
      assert NodeInv(c, Last(t), k);
      KillEffect(Last(t).nodes[k].base);
    }
  }

  /** It does happen, for any invalid inputs and any machines, all of them running. */
  lemma {:induction false} StrandedRestore(c: Scope) returns (start: State, t: Trace)
    requires WellFormed(c) && !ValidInputs(c)
    ensures IsRun(true, c, t) && Extends(Begin(start), t)
    ensures forall k :: k in c.keys ==> k in start.nodes && start.nodes[k].host.running
    ensures Last(t).restore.status.phase == Shutdown && Last(t).paused
  {
    var s;
    start, t, s := AllStopped(c);
  }
}
