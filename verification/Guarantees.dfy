/** What holds in every reachable state of a restore that writes its plans in turn, and
    what holds even if it does not. */
module Guarantees {
  import opened Objects
  import opened Instructions
  import opened Protocol
  import opened Safety

  // ---- Safety -----------------------------------------------------------------------

  /** The agent has picked up this plan since the controller wrote it. */
  predicate PickedUp(n: Node, p: Plan) { p in n.written && n.attempt == Some(p) }

  /** From the moment the restore plan is handed to the init machine until that machine
      picks up its start plan, RKE2 runs on no machine. */
  lemma RestoreIsolation(c: Scope, t: Trace, i: Key)
    requires IsRun(true, c, t) && c.init == Some(i) && i in Last(t).nodes
    requires Recover(c) in Last(t).nodes[i].written && !PickedUp(Last(t).nodes[i], Boot())
    ensures forall k :: k in c.keys ==> k in Last(t).nodes && !Last(t).nodes[k].host.running
  {
    RunKeepsInv(c, t);
    RecoverIsLate(c, Last(t), i);
    forall k | k in c.keys ensures k in Last(t).nodes && !Last(t).nodes[k].host.running {
      NothingRunsUntold(c, t, k);
      if k != i && Join(c) in Last(t).nodes[k].written {
        JoiningFollowsBoot(c, Last(t), k);
      }
    }
  }

  lemma RecoverIsLate(c: Scope, s: State, i: Key)
    requires Inv(c, s) && c.init == Some(i) && Recover(c) in s.nodes[i].written
    ensures !Early(s.restore.status.phase)
  {
    PlansDiffer(c);
    assert NodeInv(c, s, i);
  }

  /** More than that: past the shutdown no machine runs before it picked up the plan that
      starts it, whether or not there is a machine to restore on. */
  lemma NothingRunsUntold(c: Scope, t: Trace, k: Key)
    requires IsRun(true, c, t) && !Early(Last(t).restore.status.phase) && k in c.keys
    ensures k in Last(t).nodes
    ensures Last(t).nodes[k].host.running ==> PickedUp(Last(t).nodes[k], if c.init == Some(k) then Boot() else Join(c))
  {
    RunKeepsInv(c, t);
    PlansDiffer(c);
    assert NodeInv(c, Last(t), k);
    KillEffect(Last(t).nodes[k].base);
  }

  /** A machine is told to wipe its data and join only once the init machine has
      executed the restore plan and then its start plan, and from then on the init
      machine keeps running with the restored data. */
  lemma JoinOnlyBehindRestoredInit(c: Scope, t: Trace, i: Key, k: Key)
    requires IsRun(true, c, t) && c.init == Some(i) && k in c.keys && k != i
    requires k in Last(t).nodes && i in Last(t).nodes
    requires Join(c) in Last(t).nodes[k].written
    ensures Ends(Last(t).nodes[i].done, [Recover(c), Boot()])
    ensures Last(t).nodes[i].host.running && Last(t).nodes[i].host.etcd == Restored(RestorePath(c))
    ensures Holds(Last(t).nodes[i], Boot()) && Quiescent(Last(t).nodes[i])
  {
    RunKeepsInv(c, t);
    JoiningFollowsBoot(c, Last(t), k);
    assert NodeInv(c, Last(t), i);
    PlansDiffer(c);
    BootedInit(c, Last(t).nodes[i]);
  }

  lemma JoiningFollowsBoot(c: Scope, s: State, k: Key)
    requires Inv(c, s) && k in c.keys && c.init.Some? && c.init != Some(k) && Join(c) in s.nodes[k].written
    ensures s.restore.status.phase == Phase.Restore || s.restore.status.phase == Finished
    ensures Applied(s, c.init.value, Boot()) && PickedUp(s.nodes[c.init.value], Boot())
  {
    PlansDiffer(c);
    assert NodeInv(c, s, k) && NodeInv(c, s, c.init.value);
  }

  /** Past the shutdown no machine holds, executes or has acknowledged the joining plan
      unless the controller wrote it during this restore. */
  lemma JoinIsNeverLeftOver(c: Scope, t: Trace, k: Key)
    requires IsRun(true, c, t) && k in c.keys && k in Last(t).nodes && !Early(Last(t).restore.status.phase)
    requires PlanOf(Last(t).nodes[k]) == Some(Join(c)) || SumOf(Last(t).nodes[k]) == HexSha(Join(c))
          || (Last(t).nodes[k].work.Some? && Last(t).nodes[k].work.value.plan == Join(c))
    ensures Join(c) in Last(t).nodes[k].written && c.init != Some(k)
  {
    RunKeepsInv(c, t);
    PlansDiffer(c);
    assert NodeInv(c, Last(t), k);
  }

  // ---- Data -------------------------------------------------------------------------

  /** The init machine's directory holds the restored snapshot. */
  predicate InitRestored(c: Scope, s: State) {
    c.init.Some? && c.init.value in s.nodes && s.nodes[c.init.value].host.etcd == Restored(RestorePath(c))
  }

  predicate HoldsData(e: Etcd) { e.Original? || e.Restored? || e.Joined? }

  /** What a machine keeps: its etcd directory, and the configuration lines that do not
      name a server. */
  predicate KeepsData(n: Node, m: Node) { m.host.etcd == n.host.etcd }

  predicate KeepsConfig(n: Node, m: Node) { NonServer(m.host.config) == NonServer(n.host.config) }

  lemma ExecKeepsConfig(op: Op, h: Host)
    requires Own(op)
    ensures NonServer(Exec(op, h).config) == NonServer(h.config)
  {
    if op.RemoveServerUrl? {
      NonServerTwice(h.config);
    } else if op.AddServerUrl? {
      NonServerAppend(h.config, ServerLine(op.ip));
    }
  }

  lemma ExecuteKeepsData(c: Scope, s: State, k: Key, h: Host)
    requires Inv(c, s) && !Early(s.restore.status.phase) && k in c.keys && CanAct(s.nodes[k], Execute)
    requires h == AfterAct(s.nodes[k], Execute).host
    ensures NonServer(h.config) == NonServer(s.nodes[k].host.config)
    ensures c.init == Some(k) ==> h.etcd == s.nodes[k].host.etcd || h.etcd == Restored(RestorePath(c))
    ensures c.init != Some(k) ==> InitRestored(c, s)
  {
    PlansDiffer(c);
    assert NodeInv(c, s, k);
    var op := s.nodes[k].work.value.plan[s.nodes[k].work.value.pc];
    assert Own(op);
    ExecKeepsConfig(op, s.nodes[k].host);
    if c.init.Some? && c.init.value != k {
      assert NodeInv(c, s, c.init.value);
    }
  }

  lemma ActKeepsData(c: Scope, s: State, k: Key, a: Act)
    requires Inv(c, s) && !Early(s.restore.status.phase) && k in c.keys && CanAct(s.nodes[k], a)
    ensures KeepsConfig(s.nodes[k], AfterAct(s.nodes[k], a))
    ensures InitRestored(c, s) ==> InitRestored(c, Effect(s, Agent(k, a)))
    ensures KeepsData(s.nodes[k], AfterAct(s.nodes[k], a)) || InitRestored(c, Effect(s, Agent(k, a)))
  {
    if a == Execute {
      ExecuteKeepsData(c, s, k, AfterAct(s.nodes[k], a).host);
    }
  }

  lemma StepKeepsData(c: Scope, s: State, e: Event)
    requires Inv(c, s) && !Early(s.restore.status.phase) && Enabled(true, c, s, e)
    ensures !Early(Effect(s, e).restore.status.phase)
    ensures forall k :: k in c.keys ==> k in Effect(s, e).nodes && KeepsConfig(s.nodes[k], Effect(s, e).nodes[k])
    ensures InitRestored(c, s) ==> InitRestored(c, Effect(s, e))
    ensures InitRestored(c, Effect(s, e)) || forall k :: k in c.keys ==> KeepsData(s.nodes[k], Effect(s, e).nodes[k])
  {
    if e.Agent? && e.key in c.keys {
      ActKeepsData(c, s, e.key, e.act);
    }
  }

  /** Between the shutdown and any later moment of the run, every machine, the init machine
      included, keeps its etcd directory as it was, or the init machine holds the restored
      data. All configuration lines that name no server stay in any case, in order. */
  lemma {:induction false} DataSurvives(c: Scope, t: Trace, later: Trace)
    requires IsRun(true, c, later) && Extends(t, later) && !Early(Last(t).restore.status.phase)
    ensures !Early(Last(later).restore.status.phase)
    ensures forall k :: k in c.keys ==>
              k in Last(t).nodes && k in Last(later).nodes && KeepsConfig(Last(t).nodes[k], Last(later).nodes[k])
    ensures InitRestored(c, Last(t)) ==> InitRestored(c, Last(later))
    ensures InitRestored(c, Last(later))
         || forall k :: k in c.keys ==> KeepsData(Last(t).nodes[k], Last(later).nodes[k])
    decreases later
  {
    RunKeepsInv(c, later);
    if t != later {
      DataSurvives(c, t, later.before);
      RunKeepsInv(c, later.before);
      StepKeepsData(c, Last(later.before), later.e);
    }
  }

  /** So the data is never gone everywhere: if some machine held data once all were
      stopped, some machine holds data ever after. */
  lemma DataIsNeverGone(c: Scope, t: Trace, later: Trace, k: Key)
    requires IsRun(true, c, later) && Extends(t, later) && !Early(Last(t).restore.status.phase)
    requires k in c.keys && k in Last(t).nodes && HoldsData(Last(t).nodes[k].host.etcd)
    ensures exists j :: j in c.keys && j in Last(later).nodes && HoldsData(Last(later).nodes[j].host.etcd)
  {
    DataSurvives(c, t, later);
    RunKeepsInv(c, later);
    var j := if InitRestored(c, Last(later)) then c.init.value else k;
    assert j in c.keys && HoldsData(Last(later).nodes[j].host.etcd);
  }

  /** Until then a machine that will have to join is as it was stopped in every respect. */
  lemma UntouchedUntilRestored(c: Scope, t: Trace, i: Key, k: Key)
    requires IsRun(true, c, t) && c.init == Some(i) && k in c.keys && k != i
    requires !Early(Last(t).restore.status.phase) && k in Last(t).nodes && i in Last(t).nodes
    ensures Last(t).nodes[k].host == Last(t).nodes[k].base.(running := false)
         || Last(t).nodes[i].host.etcd == Restored(RestorePath(c))
  {
    RunKeepsInv(c, t);
    assert NodeInv(c, Last(t), k) && NodeInv(c, Last(t), i);
    KillEffect(Last(t).nodes[k].base);
    if !Stopped(Last(t).nodes[k]) {
      RestoreEffect(RestorePath(c), Last(t).nodes[i].base);
    }
  }

  // ---- The handshake ------------------------------------------------------------------

  /** The plan the current phase waits for on this machine. */
  predicate Awaited(c: Scope, s: State, k: Key, p: Plan) {
    match s.restore.status.phase
    case NoPhase => p == Kill()
    case Started => p == Kill()
    case Shutdown => c.init == Some(k) && p == Recover(c)
    case Restore => if c.init == Some(k) then p == Boot() else p == Join(c)
    case _ => false
  }

  /** Whenever the controller finds the awaited plan acknowledged, that plan is the last
      one the agent finished, the host is as it leaves it after the tries that were cut
      short, nothing older is in flight, and nothing the agent can do will change the
      machine until another plan is written. */
  lemma HandshakeSound(c: Scope, t: Trace, k: Key, p: Plan)
    requires IsRun(true, c, t) && k in c.keys && k in Last(t).nodes
    requires Awaited(c, Last(t), k, p) && Holds(Last(t).nodes[k], p)
    ensures Executed(Last(t).nodes[k], p) && Quiescent(Last(t).nodes[k])
    ensures p != Kill() ==> Ends(Last(t).nodes[k].done, [p])
    ensures forall a :: !CanAct(Last(t).nodes[k], a)
  {
    RunKeepsInv(c, t);
    PlansDiffer(c);
    HeldIsQuiescent(c, Last(t), k, p);
    if p != Kill() {
      AwaitedEnds(c, Last(t), k, p);
    }
  }

  lemma AwaitedEnds(c: Scope, s: State, k: Key, p: Plan)
    requires Inv(c, s) && k in c.keys && Awaited(c, s, k, p) && Holds(s.nodes[k], p) && p != Kill()
    ensures Ends(s.nodes[k].done, [p])
  {
    PlansDiffer(c);
    assert NodeInv(c, s, k);
    if p == Boot() {
      var done := s.nodes[k].done;
      assert Ends(done, [Recover(c), Boot()]);
      assert done[|done| - 2 + 1] == [Recover(c), Boot()][1];
    }
  }

  /** No try of this machine at joining was lost between its last instruction and the
      report. */
  predicate JoinedAtOnce(c: Scope, n: Node) { !LostAtTheEnd(Join(c), n.cuts) }

  /** The line that names the init machine. */
  function InitLine(c: Scope): string { "server: https://" + c.ip + ":9345" }

  /** The snapshot's path is its location without the scheme of local files. */
  lemma RestorePathIs(c: Scope, path: string)
    ensures c.location == "file://" + path ==> RestorePath(c) == path
    ensures RestorePath(c) == if "file://" <= c.location then c.location[7..] else c.location
  {
    TrimPrefixIs(c.location, "file://", path);
    if "file://" <= c.location {
      assert c.location == "file://" + c.location[7..];
      TrimPrefixIs(c.location, "file://", c.location[7..]);
    }
  }

  lemma BootedInit(c: Scope, n: Node)
    requires Booting(c, n) && Holds(n, Boot())
    ensures n.host.running && Quiescent(n)
  {
    PlansDiffer(c);
    StartEffect(n.base);
  }

  lemma JoinedOther(c: Scope, n: Node)
    requires Joining(c, n) && Holds(n, Join(c))
    ensures n.host.running && Quiescent(n) && ServerLines(n.host.config) == [InitLine(c)]
    ensures n.host.etcd == if JoinedAtOnce(c, n) then Joined(InitLine(c)) else Wiped
    ensures NonServer(n.host.config) == NonServer(n.base.config)
  {
    JoinEffect(c.ip, n.base);
  }

  /** Finished means a correct star: every machine runs, the init machine serves the
      restored data and names no server, and every other machine has exactly one server
      line, its last, naming the init machine's address. It has replicated from there
      exactly if no try at joining was lost at its very end; if one was, it runs over an
      empty directory. (`DataSurvives` adds that the other lines are all there.) */
  lemma FinishedIsStar(c: Scope, t: Trace, k: Key)
    requires IsRun(true, c, t) && Last(t).restore.status.phase == Finished && k in c.keys
    ensures ValidInputs(c) && k in Last(t).nodes && Last(t).nodes[k].host.running
    ensures Quiescent(Last(t).nodes[k])
    ensures c.init == Some(k) ==>
              var n := Last(t).nodes[k];
              && Ends(n.done, [Recover(c), Boot()]) && ServerLines(n.host.config) == []
              && n.host.etcd == Restored(if "file://" <= c.location then c.location[7..] else c.location)
    ensures c.init != Some(k) ==>
              var n := Last(t).nodes[k];
              && Ends(n.done, [Join(c)]) && ServerLines(n.host.config) == ["server: https://" + c.ip + ":9345"]
              && n.host.etcd == (if JoinedAtOnce(c, n) then Joined("server: https://" + c.ip + ":9345") else Wiped)
              && NonServer(n.host.config) == NonServer(n.base.config)
  {
    RunKeepsInv(c, t);
    assert NodeInv(c, Last(t), k);
    if c.init == Some(k) {
      RestorePathIs(c, "");
      BootedInit(c, Last(t).nodes[k]);
    } else {
      JoinedOther(c, Last(t).nodes[k]);
    }
  }

  /** The same of all machines at once, as far as it does not depend on the tries. */
  lemma FinishedLines(c: Scope, t: Trace)
    requires IsRun(true, c, t) && Last(t).restore.status.phase == Finished
    ensures forall k :: k in c.keys ==>
              && k in Last(t).nodes && Last(t).nodes[k].host.running
              && ServerLines(Last(t).nodes[k].host.config) == if c.init == Some(k) then [] else [InitLine(c)]
  {
    forall k | k in c.keys
      ensures k in Last(t).nodes && Last(t).nodes[k].host.running
      ensures ServerLines(Last(t).nodes[k].host.config) == if c.init == Some(k) then [] else [InitLine(c)]
    {
      FinishedIsStar(c, t, k);
    }
  }

  // ---- Agents at work ------------------------------------------------------------------

  /** Nothing but this machine changed. */
  predicate SameBesides(s: State, t: State, k: Key) {
    && t.restore == s.restore && t.paused == s.paused && t.nodes.Keys == s.nodes.Keys
    && forall j :: j in s.nodes && j != k ==> t.nodes[j] == s.nodes[j]
  }

  predicate SameTry(n: Node, m: Node) {
    PlanOf(m) == PlanOf(n) && m.attempt == n.attempt && m.base == n.base && m.cuts == n.cuts
  }

  /** An agent left alone executes the plan it works on. */
  lemma {:induction false} WorkIsDone(forward: bool, c: Scope, t: Trace, k: Key) returns (later: Trace)
    requires IsRun(forward, c, t) && k in Last(t).nodes && Last(t).nodes[k].work.Some?
    requires Last(t).nodes[k].work.value.pc <= |Last(t).nodes[k].work.value.plan|
    ensures IsRun(forward, c, later) && Extends(t, later) && k in Last(later).nodes
    ensures SameBesides(Last(t), Last(later), k) && SameTry(Last(t).nodes[k], Last(later).nodes[k])
    ensures var p := Last(t).nodes[k].work.value.plan; Last(later).nodes[k].work == Some(Work(p, |p|))
    decreases |Last(t).nodes[k].work.value.plan| - Last(t).nodes[k].work.value.pc
  {
    later := t;
    if Last(t).nodes[k].work.value.pc < |Last(t).nodes[k].work.value.plan| {
      var next := Then(t, Agent(k, Execute));
      later := WorkIsDone(forward, c, next, k);
      ExtendsTransitive(t, next, later);
    }
  }

  lemma {:induction false} WorkIsReported(forward: bool, c: Scope, t: Trace, k: Key) returns (later: Trace)
    requires IsRun(forward, c, t) && k in Last(t).nodes && Last(t).nodes[k].work.Some?
    requires Last(t).nodes[k].work.value.pc <= |Last(t).nodes[k].work.value.plan|
    ensures IsRun(forward, c, later) && Extends(t, later) && k in Last(later).nodes
    ensures SameBesides(Last(t), Last(later), k) && SameTry(Last(t).nodes[k], Last(later).nodes[k])
    ensures Last(later).nodes[k].work.None?
    ensures SumOf(Last(later).nodes[k]) == HexSha(Last(t).nodes[k].work.value.plan)
  {
    var done := WorkIsDone(forward, c, t, k);
    later := Then(done, Agent(k, Report));
    ExtendsTransitive(t, done, later);
  }

  lemma {:induction false} PlanIsExecuted(forward: bool, c: Scope, t: Trace, k: Key, p: Plan) returns (later: Trace)
    requires IsRun(forward, c, t) && k in Last(t).nodes && Last(t).nodes[k].work.None?
    requires PlanOf(Last(t).nodes[k]) == Some(p) && SumOf(Last(t).nodes[k]) != HexSha(p)
    ensures IsRun(forward, c, later) && Extends(t, later)
    ensures SameBesides(Last(t), Last(later), k) && Applied(Last(later), k, p) && Last(later).nodes[k].work.None?
  {
    var picked := Then(t, Agent(k, Pickup));
    later := WorkIsReported(forward, c, picked, k);
    ExtendsTransitive(t, picked, later);
  }

  lemma {:induction false} PlanIsServed(forward: bool, c: Scope, t: Trace, k: Key, p: Plan) returns (later: Trace)
    requires IsRun(forward, c, t) && Enabled(forward, c, Last(t), WritePlan(k, p))
    requires Last(t).nodes[k].work.None? && SumOf(Last(t).nodes[k]) != HexSha(p)
    ensures IsRun(forward, c, later) && Extends(t, later)
    ensures SameBesides(Last(t), Last(later), k) && Applied(Last(later), k, p) && Last(later).nodes[k].work.None?
  {
    var asked := Then(t, WritePlan(k, p));
    later := PlanIsExecuted(forward, c, asked, k, p);
    ExtendsTransitive(t, asked, later);
  }

  /** The exception does occur: wherever an agent has done the last instruction of the
      joining plan, losing that before the report leads to an acknowledged plan and a
      server that runs over an empty directory. */
  lemma {:induction false} LostTryWipes(c: Scope, t: Trace, k: Key) returns (later: Trace)
    requires IsRun(true, c, t) && !Early(Last(t).restore.status.phase) && k in c.keys && k in Last(t).nodes
    requires Last(t).nodes[k].work == Some(Work(Join(c), |Join(c)|))
    ensures IsRun(true, c, later) && Extends(t, later) && SameBesides(Last(t), Last(later), k)
    ensures Applied(Last(later), k, Join(c))
    ensures Last(later).nodes[k].host.running && Last(later).nodes[k].host.etcd == Wiped
  {
    var again := TryAgain(c, t, k);
    later := WorkIsReported(true, c, again, k);
    ExtendsTransitive(t, again, later);
    RunKeepsInv(c, later);
    JoiningAt(c, Last(later), k);
    JoinedOther(c, Last(later).nodes[k]);
  }

  lemma JoiningAt(c: Scope, s: State, k: Key)
    requires Inv(c, s) && !Early(s.restore.status.phase) && k in c.keys && PlanOf(s.nodes[k]) == Some(Join(c))
    ensures Joining(c, s.nodes[k])
  {
    PlansDiffer(c);
    assert NodeInv(c, s, k);
  }

  lemma {:induction false} TryAgain(c: Scope, t: Trace, k: Key) returns (later: Trace)
    requires IsRun(true, c, t) && !Early(Last(t).restore.status.phase) && k in c.keys && k in Last(t).nodes
    requires Last(t).nodes[k].work == Some(Work(Join(c), |Join(c)|))
    ensures IsRun(true, c, later) && Extends(t, later) && SameBesides(Last(t), Last(later), k) && k in Last(later).nodes
    ensures var m := Last(later).nodes[k];
            m.work == Some(Work(Join(c), 0)) && PlanOf(m) == Some(Join(c)) && LostAtTheEnd(Join(c), m.cuts)
  {
    RunKeepsInv(c, t);
    PlansDiffer(c);
    assert NodeInv(c, Last(t), k);
    var crashed := Then(t, Agent(k, Crash));
    var m := Last(crashed).nodes[k];
    assert m.cuts[|Last(t).nodes[k].cuts|] == 5;
    later := Then(crashed, Agent(k, Pickup));
    assert Extends(t, crashed);
  }

  /** The start handler writes the init machine's secret without checking for a nil map:
      whenever it runs, even if its work is done already, there is a listed init machine and
      its map exists. */
  lemma StartNeverWritesNilMap(c: Scope, t: Trace)
    requires IsRun(true, c, t)
    requires Last(t).restore.status.phase == Phase.Restore || Last(t).restore.status.phase == Finished
    ensures c.init.Some? && c.init.value in c.keys && c.init.value in Last(t).nodes
    ensures !Last(t).nodes[c.init.value].secret.data.Nil?
  {
    RunKeepsInv(c, t);
    assert NodeInv(c, Last(t), c.init.value);
  }

  // ---- Persisted phase and pause, even with stale reads --------------------------------

  function Rank(p: Phase): nat {
    match p
    case NoPhase => 0
    case Started => 1
    case Shutdown => 2
    case Restore => 3
    case _ => 4
  }

  /** With arbitrarily stale reads the stored phase still only moves forward, through
      the five phases the code uses, and it is paused where it must be. */
  lemma {:induction false} PhaseMovesForward(forward: bool, c: Scope, t: Trace, later: Trace)
    requires IsRun(forward, c, later) && Extends(t, later)
    ensures Reached(Last(t).restore.status.phase) && Reached(Last(later).restore.status.phase)
    ensures Rank(Last(t).restore.status.phase) <= Rank(Last(later).restore.status.phase)
    ensures Last(later).restore.status.phase == Last(t).restore.status.phase ==>
              Last(later).restore.status == Last(t).restore.status
    ensures PauseInv(Last(later))
    ensures IsRun(forward, c, t)
    decreases later
  {
    match later
    case Begin(s) =>
    case Then(before, e) =>
      if t == later {
        PhaseMovesForward(forward, c, before, before);
      } else {
        PhaseMovesForward(forward, c, t, before);
      }
  }

  /** The phases a run stores one after the other. */
  function Stored(t: Trace): seq<Phase> {
    match t
    case Begin(s) => [s.restore.status.phase]
    case Then(before, e) => if e.Persist? then Stored(before) + [e.status.phase] else Stored(before)
  }

  const LONG_PATH: seq<Phase> := [NoPhase, Started, Shutdown, Phase.Restore, Finished]
  const SHORT_PATH: seq<Phase> := [NoPhase, Shutdown, Phase.Restore, Finished]

  /** The stored phases are one of the paths, up to phase `last`. */
  predicate OnPath(stored: seq<Phase>, last: Phase) {
    || stored == LONG_PATH[..Rank(last) + 1]
    || (Rank(last) >= 2 && stored == SHORT_PATH[..Rank(last)])
  }

  lemma PathNext(stored: seq<Phase>, last: Phase, next: Phase)
    requires OnPath(stored, last) && Edge(last, next)
    ensures OnPath(stored + [next], next)
  {
    var r := Rank(next);
    assert LONG_PATH[..r + 1] == LONG_PATH[..r] + [LONG_PATH[r]] && LONG_PATH[r] == next;
    assert r >= 2 ==> SHORT_PATH[..r] == SHORT_PATH[..r - 1] + [SHORT_PATH[r - 1]] && SHORT_PATH[r - 1] == next;
  }

  /** They spell the whole path or a part of it; only the first stop may be skipped. */
  lemma {:induction false} StoredPath(forward: bool, c: Scope, t: Trace)
    requires IsRun(forward, c, t)
    ensures OnPath(Stored(t), Last(t).restore.status.phase)
    ensures Stored(t) <= LONG_PATH || Stored(t) <= SHORT_PATH
  {
    match t
    case Begin(s) =>
    case Then(before, e) =>
      StoredPath(forward, c, before);
      if e.Persist? {
        PathNext(Stored(before), Last(before).restore.status.phase, e.status.phase);
      }
  }

  // ---- Bounded writes --------------------------------------------------------------------

  function Total(keys: seq<Key>, w: map<Key, int>): int
    requires forall k :: k in keys ==> k in w
  {
    if keys == [] then 0 else w[keys[0]] + Total(keys[1..], w)
  }

  lemma {:induction false} TotalAgrees(keys: seq<Key>, v: map<Key, int>, w: map<Key, int>)
    requires forall k :: k in keys ==> k in v && k in w && v[k] == w[k]
    ensures Total(keys, v) == Total(keys, w)
  {
    if keys != [] {
      TotalAgrees(keys[1..], v, w);
    }
  }

  lemma {:induction false} TotalElsewhere(keys: seq<Key>, w: map<Key, int>, k: Key, v: int)
    requires (forall j :: j in keys ==> j in w) && k !in keys
    ensures Total(keys, w[k := v]) == Total(keys, w)
  {
    if keys != [] {
      TotalElsewhere(keys[1..], w, k, v);
    }
  }

  lemma {:induction false} TotalUpdate(keys: seq<Key>, w: map<Key, int>, k: Key, v: int)
    requires (forall j :: j in keys ==> j in w) && k in keys
    requires forall i, j :: 0 <= i < j < |keys| ==> keys[i] != keys[j]
    ensures Total(keys, w[k := v]) == Total(keys, w) - w[k] + v
  {
    if keys[0] == k {
      TotalElsewhere(keys[1..], w, k, v);
    } else {
      TotalUpdate(keys[1..], w, k, v);
    }
  }

  lemma {:induction false} TotalBound(keys: seq<Key>, w: map<Key, int>, i: Option<Key>, most: nat, extra: nat)
    requires forall j :: j in keys ==> j in w && w[j] <= (if i == Some(j) then most + extra else most)
    requires forall x, y :: 0 <= x < y < |keys| ==> keys[x] != keys[y]
    ensures Total(keys, w) <= most * |keys| + extra
    ensures (forall j :: j in keys ==> i != Some(j)) ==> Total(keys, w) <= most * |keys|
  {
    if keys != [] {
      TotalBound(keys[1..], w, i, most, extra);
      assert most * |keys| == most * |keys[1..]| + most;
    }
  }

  function WriteCounts(s: State): map<Key, int> {
    map k | k in s.nodes :: |s.nodes[k].written|
  }

  function Writes(t: Trace): nat {
    match t
    case Begin(s) => 0
    case Then(before, e) => Writes(before) + (if e.WritePlan? then 1 else 0)
  }

  /** From the first plan write until the finished phase is stored the cluster stays
      paused, however stale the controller's reads are. */
  lemma {:induction false} PauseBracket(forward: bool, c: Scope, t: Trace)
    requires IsRun(forward, c, t)
    ensures Writes(t) > 0 && Last(t).restore.status.phase != Finished ==> Last(t).paused
  {
    match t
    case Begin(s) =>
    case Then(before, e) =>
      PauseBracket(forward, c, before);
      PhaseMovesForward(forward, c, before, before);
  }

  lemma {:induction false} NewNodesHaveNoWrites(keys: seq<Key>, s: State)
    requires forall k :: k in keys ==> k in s.nodes && s.nodes[k].written == []
    ensures Total(keys, WriteCounts(s)) == 0
  {
    if keys != [] {
      NewNodesHaveNoWrites(keys[1..], s);
    }
  }

  lemma StepRecordsWrites(c: Scope, s: State, e: Event)
    requires WellFormed(c) && (forall k :: k in c.keys ==> k in s.nodes)
    requires e.WritePlan? ==> e.key in c.keys
    ensures forall k :: k in c.keys ==> k in Effect(s, e).nodes
    ensures Total(c.keys, WriteCounts(Effect(s, e))) == Total(c.keys, WriteCounts(s)) + (if e.WritePlan? then 1 else 0)
  {
    var w := WriteCounts(s);
    if e.WritePlan? {
      assert WriteCounts(Effect(s, e)) == w[e.key := w[e.key] + 1];
      TotalUpdate(c.keys, w, e.key, w[e.key] + 1);
    } else {
      assert WriteCounts(Effect(s, e)) == w;
    }
  }

  lemma {:induction false} WritesAreRecorded(forward: bool, c: Scope, t: Trace)
    requires IsRun(forward, c, t)
    ensures WellFormed(c) && forall k :: k in c.keys ==> k in Last(t).nodes
    ensures Total(c.keys, WriteCounts(Last(t))) == Writes(t)
  {
    match t
    case Begin(s) => NewNodesHaveNoWrites(c.keys, s);
    case Then(before, e) =>
      WritesAreRecorded(forward, c, before);
      StepRecordsWrites(c, Last(before), e);
  }

  lemma WritesPerNode(c: Scope, s: State, k: Key)
    requires Inv(c, s) && k in c.keys
    ensures k in s.nodes && |s.nodes[k].written| <= (if c.init == Some(k) then 3 else 2)
  {
    assert NodeInv(c, s, k);
  }

  /** However often a pass is aborted and repeated, a restore of n machines writes at
      most 2n + 1 plans. */
  lemma BoundedWrites(c: Scope, t: Trace)
    requires IsRun(true, c, t)
    ensures Writes(t) <= 2 * |c.keys| + 1
  {
    RunKeepsInv(c, t);
    WritesAreRecorded(true, c, t);
    var w := WriteCounts(Last(t));
    forall k | k in c.keys ensures k in w && w[k] <= (if c.init == Some(k) then 3 else 2) {
      WritesPerNode(c, Last(t), k);
    }
    TotalBound(c.keys, w, c.init, 2, 1);
  }

  // ---- Runs that happen ------------------------------------------------------------------

  lemma {:induction false} Step(forward: bool, c: Scope, t: Trace, s: State, e: Event) returns (t': Trace, s': State)
    requires IsRun(forward, c, t) && Last(t) == s && Enabled(forward, c, s, e)
    ensures t' == Then(t, e) && s' == Effect(s, e) && IsRun(forward, c, t') && Last(t') == s'
  {
    t', s' := Then(t, e), Effect(s, e);
  }

  function RunningNode(): Node {
    var host := Host(true, Original("data"), [], {});
    Node(Secret(0, Nil), None, host, None, host, [], [], [])
  }

  lemma {:induction false} AllStarted(c: Scope) returns (start: State)
    requires WellFormed(c)
    ensures Initial(c, start) && start.restore.status == RestoreStatus(NoPhase, []) && !start.paused
    ensures forall k :: k in c.keys ==> k in start.nodes && start.nodes[k] == RunningNode()
  {
    var restore := RestoreObject(map[], false, RestoreSpec("cluster", "backup"), RestoreStatus(NoPhase, []));
    start := State(restore, 0, false, 0, map k | k in c.keys :: RunningNode());
  }

  predicate Idle(s: State, k: Key, p: Plan) { Applied(s, k, p) && s.nodes[k].work.None? }

  /** From machines that all run, the first `n` are shut down. */
  lemma {:induction false} KillFirst(c: Scope, n: nat) returns (start: State, t: Trace, s: State)
    requires WellFormed(c) && n <= |c.keys|
    ensures IsRun(true, c, t) && Last(t) == s && Extends(Begin(start), t)
    ensures forall k :: k in c.keys ==> k in start.nodes && start.nodes[k].host.running
    ensures s.restore.status == RestoreStatus(NoPhase, []) && s.paused
    ensures forall j :: 0 <= j < n ==> Idle(s, c.keys[j], Kill())
    ensures forall j :: n <= j < |c.keys| ==> c.keys[j] in s.nodes && s.nodes[c.keys[j]] == RunningNode()
  {
    if n == 0 {
      start := AllStarted(c);
      t, s := Step(true, c, Begin(start), start, Pause);
    } else {
      start, t, s := KillFirst(c, n - 1);
      var before := t;
      t := PlanIsServed(true, c, t, c.keys[n - 1], Kill());
      s := Last(t);
      ExtendsTransitive(Begin(start), before, t);
    }
  }

  /** And then the restore is past the shutdown. */
  lemma {:induction false} AllStopped(c: Scope) returns (start: State, t: Trace, s: State)
    requires WellFormed(c)
    ensures IsRun(true, c, t) && Last(t) == s && Extends(Begin(start), t)
    ensures forall k :: k in c.keys ==> k in start.nodes && start.nodes[k].host.running
    ensures s.restore.status == RestoreStatus(Shutdown, []) && s.paused
    ensures forall k :: k in c.keys ==> Idle(s, k, Kill())
  {
    start, t, s := KillFirst(c, |c.keys|);
    var before := t;
    t, s := Step(true, c, t, s, Persist(RestoreStatus(Shutdown, [])));
    ExtendsTransitive(Begin(start), before, t);
  }

  /** The init machine is restored and started. */
  lemma {:induction false} InitRestarts(c: Scope, i: Key) returns (t: Trace, s: State)
    requires WellFormed(c) && ValidInputs(c) && c.init == Some(i)
    ensures IsRun(true, c, t) && Last(t) == s && s.restore.status == RestoreStatus(Phase.Restore, []) && s.paused
    ensures Applied(s, i, Boot()) && forall k :: k in c.keys && k != i ==> Idle(s, k, Kill())
  {
    PlansDiffer(c);
    var start;
    start, t, s := AllStopped(c);
    t := PlanIsServed(true, c, t, i, Recover(c));
    t, s := Step(true, c, t, Last(t), Persist(RestoreStatus(Phase.Restore, [])));
    t := PlanIsServed(true, c, t, i, Boot());
    s := Last(t);
  }

  lemma {:induction false} JoinTriedTwice(c: Scope, i: Key, k: Key) returns (t: Trace, s: State)
    requires WellFormed(c) && ValidInputs(c) && c.init == Some(i) && k in c.keys && k != i
    ensures IsRun(true, c, t) && Last(t) == s && s.restore.status == RestoreStatus(Phase.Restore, []) && s.paused
    ensures Applied(s, i, Boot()) && Applied(s, k, Join(c))
    ensures s.nodes[k].host.running && s.nodes[k].host.etcd == Wiped
  {
    PlansDiffer(c);
    t, s := InitRestarts(c, i);
    t, s := Step(true, c, t, s, WritePlan(k, Join(c)));
    t, s := Step(true, c, t, s, Agent(k, Pickup));
    t := WorkIsDone(true, c, t, k);
    t := LostTryWipes(c, t, k);
    s := Last(t);
  }

  /** A whole restore of two machines that ends finished, with the one that joined running
      over an empty directory. */
  lemma {:induction false} FinishedOverNothing(c: Scope, i: Key, k: Key) returns (t: Trace)
    requires c.keys == [i, k] && i != k && ValidInputs(c) && c.init == Some(i)
    ensures IsRun(true, c, t) && Last(t).restore.status.phase == Finished && k in Last(t).nodes
    ensures Last(t).nodes[k].host.running && Last(t).nodes[k].host.etcd == Wiped
  {
    var s;
    t, s := JoinTriedTwice(c, i, k);
    t, s := Step(true, c, t, s, Persist(RestoreStatus(Finished, [])));
  }
}
