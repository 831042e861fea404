/** The invariant of a restore and what it gives in every reachable state. */
module Safety {
  import opened Objects
  import opened Instructions
  import opened Protocol

  // ---- What one machine goes through -----------------------------------------------

  /** The plan is acknowledged, nothing is in flight, and the host is as the plan leaves it
      after the tries that were cut short: as if it had been executed exactly once, unless
      it joins and a try was lost at its very end. */
  predicate Executed(n: Node, p: Plan) {
    SumOf(n) == HexSha(p) && n.work.None? && n.host == AfterTries(p, n.cuts, n.base)
  }

  /** Either idle, or working on this very plan. */
  predicate OnlyWorksOn(n: Node, p: Plan) {
    n.work.Some? ==> n.work.value.plan == p && n.attempt == Some(p)
  }

  predicate Ends(done: seq<Plan>, tail: seq<Plan>) {
    |tail| <= |done| && forall i :: 0 <= i < |tail| ==> done[|done| - |tail| + i] == tail[i]
  }

  predicate BeforeKill(n: Node) {
    && Tracked(n)
    && (SumOf(n) == HexSha(Kill()) ==> Executed(n, Kill()) && (PlanOf(n).None? || PlanOf(n) == Some(Kill())))
    && (SumOf(n) == HexSha(Kill()) && n.attempt != Some(Kill()) ==> !n.base.running)
    && (n.work.Some? && n.work.value.plan == Kill() ==>
          n.attempt == Some(Kill()) && (PlanOf(n).None? || PlanOf(n) == Some(Kill())))
    && (n.written == [] || (n.written == [Kill()] && PlanOf(n) == Some(Kill())))
  }

  predicate Stopped(n: Node) {
    && Tracked(n) && PlanOf(n) == Some(Kill()) && Executed(n, Kill())
    && (n.attempt != Some(Kill()) ==> !n.base.running)
    && (n.written == [] || n.written == [Kill()])
  }

  predicate Recovering(c: Scope, n: Node) {
    && Tracked(n) && PlanOf(n) == Some(Recover(c)) && OnlyWorksOn(n, Recover(c))
    && !n.host.running
    && (SumOf(n) == HexSha(Kill()) || SumOf(n) == HexSha(Recover(c)))
    && (SumOf(n) == HexSha(Recover(c)) ==>
          Executed(n, Recover(c)) && Ends(n.done, [Recover(c)]) && n.attempt == Some(Recover(c)))
    && (n.written == [Recover(c)] || n.written == [Kill(), Recover(c)])
  }

  predicate Booting(c: Scope, n: Node) {
    && Tracked(n) && PlanOf(n) == Some(Boot()) && OnlyWorksOn(n, Boot())
    && c.ip != "" && n.host.etcd == Restored(RestorePath(c)) && ServerLines(n.host.config) == []
    && (SumOf(n) == HexSha(Recover(c)) || SumOf(n) == HexSha(Boot()))
    && (SumOf(n) == HexSha(Recover(c)) ==> Ends(n.done, [Recover(c)]))
    && (SumOf(n) == HexSha(Boot()) ==> Executed(n, Boot()) && Ends(n.done, [Recover(c), Boot()]))
    && (n.attempt != Some(Boot()) ==> n.work.None? && SumOf(n) == HexSha(Recover(c)) && !n.host.running)
    && (n.written == [Recover(c), Boot()] || n.written == [Kill(), Recover(c), Boot()])
  }

  predicate Joining(c: Scope, n: Node) {
    && Tracked(n) && PlanOf(n) == Some(Join(c)) && OnlyWorksOn(n, Join(c))
    && (SumOf(n) == HexSha(Kill()) || SumOf(n) == HexSha(Join(c)))
    && (SumOf(n) == HexSha(Join(c)) ==>
          Executed(n, Join(c)) && Ends(n.done, [Join(c)]) && n.attempt == Some(Join(c)))
    && !(if n.attempt == Some(Join(c)) then n.base.running else n.host.running)
    && (n.written == [Join(c)] || n.written == [Kill(), Join(c)])
  }

  lemma ActTracked(n: Node, a: Act)
    requires Tracked(n) && CanAct(n, a)
    ensures Tracked(AfterAct(n, a))
  {
    var m := AfterAct(n, a);
    match a
    case Pickup =>
      var p := PlanOf(n).value;
      assert p[..0] == [];
    case Execute =>
      var w := n.work.value;
      ExecNext(w.plan, w.pc, Attempts(w.plan, if n.attempt == Some(w.plan) then n.cuts else [], n.base));
    case Crash =>
      if n.attempt == Some(n.work.value.plan) {
        AttemptsNext(n.work.value.plan, n.cuts, n.work.value.pc, n.base);
      }
    case Report =>
      var p := n.work.value.plan;
      assert p[..|p|] == p;
  }

  lemma WriteTracked(n: Node, p: Plan)
    requires Tracked(n)
    ensures Tracked(AfterWrite(n, p))
  {
  }

  /** What a finished plan of the restore leaves depends on the host the agent first tried
      it on and, if it joins, on whether a try was lost at its very end; on nothing else. */
  lemma ReportExecutes(n: Node, p: Plan)
    requires Tracked(n) && Written(p) && CanAct(n, Report)
    requires n.work.value.plan == p && n.attempt == Some(p)
    ensures Executed(AfterAct(n, Report), p)
  {
    ActTracked(n, Report);
    CrashOutcome(p, n.cuts, n.base);
  }

  lemma ActBeforeKill(c: Scope, n: Node, a: Act)
    requires BeforeKill(n) && CanAct(n, a)
    ensures BeforeKill(AfterAct(n, a))
  {
    PlansDiffer(c);
    ActTracked(n, a);
    if a.Report? && n.work.value.plan == Kill() {
      ReportExecutes(n, Kill());
    }
  }

  lemma ActRecovering(c: Scope, n: Node, a: Act)
    requires Recovering(c, n) && CanAct(n, a)
    ensures Recovering(c, AfterAct(n, a))
  {
    PlansDiffer(c);
    ActTracked(n, a);
    if a.Report? {
      ReportExecutes(n, Recover(c));
    }
  }

  lemma EndsAppend(done: seq<Plan>, tail: seq<Plan>, p: Plan)
    requires Ends(done, tail)
    ensures Ends(done + [p], tail + [p])
    ensures Ends(done + [p], [p])
  {
    assert (done + [p])[|done| - |tail|..] == done[|done| - |tail|..] + [p];
  }

  lemma ExecuteBooting(c: Scope, n: Node)
    requires Booting(c, n) && CanAct(n, Execute)
    ensures Booting(c, AfterAct(n, Execute))
  {
    ActTracked(n, Execute);
    assert n.work.value.plan[n.work.value.pc] == StartRKE2;
    assert Exec(StartRKE2, n.host) == n.host.(running := true);
  }

  lemma ReportBooting(c: Scope, n: Node)
    requires Booting(c, n) && CanAct(n, Report)
    ensures Booting(c, AfterAct(n, Report))
  {
    PlansDiffer(c);
    ReportExecutes(n, Boot());
    ActTracked(n, Report);
    EndsAppend(n.done, [Recover(c)], Boot());
    assert [Recover(c)] + [Boot()] == [Recover(c), Boot()];
  }

  lemma ActBooting(c: Scope, n: Node, a: Act)
    requires Booting(c, n) && CanAct(n, a)
    ensures Booting(c, AfterAct(n, a))
  {
    match a
    case Report => ReportBooting(c, n);
    case Execute => ExecuteBooting(c, n);
    case _ => ActTracked(n, a);
  }

  lemma ActJoining(c: Scope, n: Node, a: Act)
    requires Joining(c, n) && CanAct(n, a)
    ensures Joining(c, AfterAct(n, a))
  {
    PlansDiffer(c);
    ActTracked(n, a);
    if a.Report? {
      ReportExecutes(n, Join(c));
    }
  }

  lemma WriteKill(c: Scope, n: Node)
    requires BeforeKill(n) && PlanOf(n) != Some(Kill())
    ensures BeforeKill(AfterWrite(n, Kill()))
  {
    WriteTracked(n, Kill());
  }

  lemma WriteRecover(c: Scope, n: Node)
    requires Stopped(n)
    ensures Recovering(c, AfterWrite(n, Recover(c)))
  {
    PlansDiffer(c);
    WriteTracked(n, Recover(c));
    KillEffect(n.base);
  }

  lemma WriteBoot(c: Scope, n: Node)
    requires Recovering(c, n) && Holds(n, Recover(c)) && c.ip != ""
    ensures Booting(c, AfterWrite(n, Boot()))
  {
    PlansDiffer(c);
    WriteTracked(n, Boot());
    RestoreEffect(RestorePath(c), n.base);
    NonServerTwice(n.base.config);
  }

  lemma WriteJoin(c: Scope, n: Node)
    requires Stopped(n)
    ensures Joining(c, AfterWrite(n, Join(c)))
  {
    PlansDiffer(c);
    WriteTracked(n, Join(c));
    KillEffect(n.base);
  }

  // ---- The whole cluster -------------------------------------------------------------

  predicate IsInit(c: Scope, k: Key) { c.init == Some(k) }

  predicate NodeInv(c: Scope, s: State, k: Key)
    requires k in s.nodes
  {
    var n := s.nodes[k];
    match s.restore.status.phase
    case NoPhase => BeforeKill(n)
    case Started => BeforeKill(n)
    case Shutdown => Stopped(n) || (IsInit(c, k) && Recovering(c, n))
    case Restore =>
      if IsInit(c, k) then Booting(c, n) || (Recovering(c, n) && Holds(n, Recover(c)))
      else Stopped(n) || (Joining(c, n) && c.init.Some? && Applied(s, c.init.value, Boot()))
    case Finished =>
      if IsInit(c, k) then Booting(c, n) && Holds(n, Boot())
      else Joining(c, n) && Holds(n, Join(c))
    case _ => false
  }

  predicate PauseInv(s: State) {
    s.restore.status.phase == Shutdown || s.restore.status.phase == Phase.Restore ==> s.paused
  }

  predicate Reached(p: Phase) {
    p == NoPhase || p == Started || p == Shutdown || p == Phase.Restore || p == Finished
  }

  predicate Inv(c: Scope, s: State) {
    && WellFormed(c)
    && PauseInv(s)
    && Reached(s.restore.status.phase)
    && (s.restore.status.phase == Phase.Restore || s.restore.status.phase == Finished ==>
          c.init.Some? && c.location != "")
    && (s.restore.status.phase == Finished ==> c.ip != "")
    && (forall k :: k in c.keys ==> k in s.nodes)
    && (forall k {:trigger NodeInv(c, s, k)} :: k in c.keys ==> NodeInv(c, s, k))
  }

  lemma InitialInv(c: Scope, s: State)
    requires Initial(c, s)
    ensures Inv(c, s)
  {
    forall k | k in c.keys ensures k in s.nodes && NodeInv(c, s, k) {
      KillEffect(s.nodes[k].host);
    }
  }

  /** Once a plan is acknowledged nothing in flight can disturb it. */
  lemma HeldIsQuiescent(c: Scope, s: State, k: Key, p: Plan)
    requires Inv(c, s) && k in c.keys && Applied(s, k, p)
    requires p == Kill() || p == Recover(c) || p == Boot() || p == Join(c)
    requires Early(s.restore.status.phase) ==> p == Kill()
    ensures Quiescent(s.nodes[k]) && Executed(s.nodes[k], p)
  {
    PlansDiffer(c);
    assert NodeInv(c, s, k);
  }

  lemma AgentKeepsInv(c: Scope, s: State, k: Key, a: Act)
    requires Inv(c, s) && Enabled(true, c, s, Agent(k, a))
    ensures Inv(c, Effect(s, Agent(k, a)))
  {
    PlansDiffer(c);
    var t := Effect(s, Agent(k, a));
    if c.init.Some? && Applied(s, c.init.value, Boot()) && !Early(s.restore.status.phase) {
      HeldIsQuiescent(c, s, c.init.value, Boot());
      assert c.init.value != k;
    }
    forall j | j in c.keys ensures j in t.nodes && NodeInv(c, t, j) {
      assert NodeInv(c, s, j);
      if j == k {
        AgentKeepsNode(c, s.nodes[k], a);
        ActingIsUnheld(c, s.nodes[k], a);
      }
    }
  }

  lemma AgentKeepsNode(c: Scope, n: Node, a: Act)
    requires CanAct(n, a)
    ensures BeforeKill(n) ==> BeforeKill(AfterAct(n, a))
    ensures Recovering(c, n) ==> Recovering(c, AfterAct(n, a))
    ensures Booting(c, n) ==> Booting(c, AfterAct(n, a))
    ensures Joining(c, n) ==> Joining(c, AfterAct(n, a))
  {
    if BeforeKill(n) { ActBeforeKill(c, n, a); }
    if Recovering(c, n) { ActRecovering(c, n, a); }
    if Booting(c, n) { ActBooting(c, n, a); }
    if Joining(c, n) { ActJoining(c, n, a); }
  }

  lemma ActingIsUnheld(c: Scope, n: Node, a: Act)
    requires CanAct(n, a)
    ensures !Stopped(n)
    ensures Recovering(c, n) ==> !Holds(n, Recover(c))
    ensures Booting(c, n) ==> !Holds(n, Boot())
    ensures Joining(c, n) ==> !Holds(n, Join(c))
  {
  }

  lemma WriteKeepsInv(c: Scope, s: State, k: Key, p: Plan)
    requires Inv(c, s) && Enabled(true, c, s, WritePlan(k, p))
    ensures Inv(c, Effect(s, WritePlan(k, p)))
  {
    PlansDiffer(c);
    var t := Effect(s, WritePlan(k, p));
    assert NodeInv(c, s, k);
    if p == Kill() {
      WriteKill(c, s.nodes[k]);
    } else if p == Recover(c) {
      WriteRecover(c, s.nodes[k]);
    } else if p == Boot() {
      WriteBoot(c, s.nodes[k]);
    } else {
      WriteJoin(c, s.nodes[k]);
    }
    forall j | j in c.keys ensures j in t.nodes && NodeInv(c, t, j) {
      assert NodeInv(c, s, j);
    }
  }

  lemma PersistKeepsInv(c: Scope, s: State, status: RestoreStatus)
    requires Inv(c, s) && Enabled(true, c, s, Persist(status))
    ensures Inv(c, Effect(s, Persist(status)))
  {
    PlansDiffer(c);
    var t := Effect(s, Persist(status));
    forall j | j in c.keys ensures j in t.nodes && NodeInv(c, t, j) {
      assert NodeInv(c, s, j);
    }
  }

  /** Every step of a restore that writes its plans in turn keeps the invariant. */
  lemma StepKeepsInv(c: Scope, s: State, e: Event)
    requires Inv(c, s) && Enabled(true, c, s, e)
    ensures Inv(c, Effect(s, e))
  {
    match e
    case Agent(k, a) => 
      if k in c.keys {
        AgentKeepsInv(c, s, k, a);
      } else {
        StrangerKeepsInv(c, s, Effect(s, e));
      }
    case WritePlan(k, p) => WriteKeepsInv(c, s, k, p);
    case Persist(status) => PersistKeepsInv(c, s, status);
    case _ => StrangerKeepsInv(c, s, Effect(s, e));
  }

  lemma StrangerKeepsInv(c: Scope, s: State, t: State)
    requires Inv(c, s) && PauseInv(t) && t.restore.status.phase == s.restore.status.phase
    requires forall k :: k in c.keys ==> k in t.nodes && t.nodes[k] == s.nodes[k]
    ensures Inv(c, t)
  {
    forall j | j in c.keys ensures NodeInv(c, t, j) {
      assert NodeInv(c, s, j);
    }
  }

  lemma {:induction false} RunKeepsInv(c: Scope, t: Trace)
    requires IsRun(true, c, t)
    ensures Inv(c, Last(t))
  {
    match t
    case Begin(s) => InitialInv(c, s);
    case Then(before, e) =>
      RunKeepsInv(c, before);
      StepKeepsInv(c, Last(before), e);
  }
}
