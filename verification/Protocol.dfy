/** The restore protocol as a state machine over API server, agents and machines:
    what may happen in one step, which runs that allows, and what every run keeps.
    The controller module shows that the controller's code produces only such runs. */
module Protocol {
  import opened Objects
  import opened Instructions

  /** A machine is named by its RKE2Config, whose plan secret and agent are its own. */
  type Key = string

  /** What a restore works on, fixed while it lasts. `init` is the listed machine
      that holds the backup, if there is one. */
  datatype Scope = Scope(keys: seq<Key>, init: Option<Key>, location: string, ip: string)

  /** A stored checksum. `HexSha` is a free constructor: different plans have
      different checksums. */
  datatype Sum = NoSum | HexSha(of: Plan) | OtherSum(text: string)

  /** The data of a plan secret; a secret created without any has a nil map. */
  datatype Data = Nil | Data(plan: Option<Plan>, sum: Sum)

  datatype Secret = Secret(version: nat, data: Data)

  /** A plan an agent is executing, and how many of its instructions are through. */
  datatype Work = Work(plan: Plan, pc: nat)

  /** One machine: its plan secret, its agent's work, its host, and the history the
      properties speak about. `attempt` is the plan the agent has been trying since
      it was written, `base` the host before the first try, `cuts` how far each
      abandoned try got, `done` the plans finished, `written` the plans the
      controller wrote. */
  datatype Node = Node(
    secret: Secret, work: Option<Work>, host: Host,
    attempt: Option<Plan>, base: Host, cuts: seq<nat>, done: seq<Plan>, written: seq<Plan>)

  /** `version` and `clusterVersion` are the resource versions of the restore object
      and of the cluster. */
  datatype State = State(
    restore: RestoreObject, version: nat, paused: bool, clusterVersion: nat, nodes: map<Key, Node>)

  /** What an agent does on its own: pick up the plan in its secret, execute the next
      instruction, lose its progress, or report the plan it finished. */
  datatype Act = Pickup | Execute | Crash | Report

  datatype Event =
    | Agent(key: Key, act: Act)
    | EditRestore(labels: map<string, string>, deleting: bool)
    | EditCluster
    | Pause
    | Unpause
    | WritePlan(key: Key, plan: Plan)
    | Persist(status: RestoreStatus)

  // ---- Scope and plans ------------------------------------------------------------

  predicate WellFormed(c: Scope) {
    && (forall i, j :: 0 <= i < j < |c.keys| ==> c.keys[i] != c.keys[j])
    && (c.init.Some? ==> c.init.value in c.keys)
  }

  predicate ValidInputs(c: Scope) { c.init.Some? && c.location != "" && c.ip != "" }

  function RestorePath(c: Scope): string { TrimPrefix(c.location, "file://") }

  function Kill(): Plan { KillPlan() }

  function Recover(c: Scope): Plan { RestorePlan(RestorePath(c)) }

  function Boot(): Plan { StartPlan() }

  function Join(c: Scope): Plan { JoinPlan(c.ip) }

  lemma PlansDiffer(c: Scope)
    ensures |Kill()| == 1 && |Recover(c)| == 3 && |Boot()| == 1 && |Join(c)| == 5 && Kill() != Boot()
    ensures Written(Kill()) && Written(Recover(c)) && Written(Boot()) && Written(Join(c))
  {
    assert Kill()[0] != Boot()[0];
  }

  // ---- Nodes --------------------------------------------------------------------------

  function PlanOf(n: Node): Option<Plan> { if n.secret.data.Nil? then None else n.secret.data.plan }

  function SumOf(n: Node): Sum { if n.secret.data.Nil? then NoSum else n.secret.data.sum }

  predicate Holds(n: Node, p: Plan) { PlanOf(n) == Some(p) && SumOf(n) == HexSha(p) }

  /** No agent step is possible on this machine. */
  predicate Quiescent(n: Node) {
    n.work.None? && (PlanOf(n).Some? ==> SumOf(n) == HexSha(PlanOf(n).value))
  }

  predicate CanAct(n: Node, a: Act) {
    match a
    case Pickup => n.work.None? && PlanOf(n).Some? && SumOf(n) != HexSha(PlanOf(n).value)
    case Execute => n.work.Some? && n.work.value.pc < |n.work.value.plan|
    case Crash => n.work.Some?
    case Report => n.work.Some? && n.work.value.pc >= |n.work.value.plan|
  }

  function AfterAct(n: Node, a: Act): Node
    requires CanAct(n, a)
  {
    match a
    case Pickup =>
      var p := PlanOf(n).value;
      if n.attempt == Some(p) then n.(work := Some(Work(p, 0)))
      else n.(work := Some(Work(p, 0)), attempt := Some(p), base := n.host, cuts := [])
    case Execute =>
      var w := n.work.value;
      n.(work := Some(Work(w.plan, w.pc + 1)), host := Exec(w.plan[w.pc], n.host))
    case Crash =>
      if n.attempt == Some(n.work.value.plan) then n.(work := None, cuts := n.cuts + [n.work.value.pc])
      else n.(work := None)
    case Report =>
      var p := n.work.value.plan;
      n.(work := None, done := n.done + [p],
         secret := Secret(n.secret.version + 1, Data(PlanOf(n), HexSha(p))))
  }

  function AfterWrite(n: Node, p: Plan): Node {
    n.(secret := Secret(n.secret.version + 1, Data(Some(p), SumOf(n))),
       attempt := if n.attempt == Some(p) then n.attempt else None,
       written := n.written + [p])
  }

  // ---- Steps ----------------------------------------------------------------------------

  predicate Applied(s: State, k: Key, p: Plan) { k in s.nodes && Holds(s.nodes[k], p) }

  predicate Edge(a: Phase, b: Phase) {
    || (a == NoPhase && b == Started)
    || (a == NoPhase && b == Shutdown)
    || (a == Started && b == Shutdown)
    || (a == Shutdown && b == Restore)
    || (a == Restore && b == Finished)
  }

  predicate Early(p: Phase) { p == NoPhase || p == Started }

  /** The plans the controller ever writes for a machine. */
  predicate Known(c: Scope, k: Key, p: Plan) {
    || p == Kill()
    || (c.init == Some(k) && (p == Recover(c) || p == Boot()))
    || (c.init != Some(k) && p == Join(c))
  }

  /** The handler of this phase writes this plan to this machine. */
  predicate DueAt(c: Scope, s: State, phase: Phase, k: Key, p: Plan) {
    || (p == Kill() && Early(phase))
    || (p == Recover(c) && phase == Phase.Shutdown && c.init == Some(k) && c.location != "")
    || (p == Boot() && phase == Phase.Restore && c.init == Some(k) && c.ip != "")
    || (p == Join(c) && phase == Phase.Restore && c.init.Some? && c.init != Some(k) && c.ip != ""
        && Applied(s, c.init.value, Boot()))
  }

  /** It is this plan's turn on this machine. */
  predicate Due(c: Scope, s: State, k: Key, p: Plan) { DueAt(c, s, s.restore.status.phase, k, p) }

  /** Every machine has acknowledged what the step to this phase waits for. */
  predicate Earned(c: Scope, s: State, phase: Phase) {
    match phase
    case Started => true
    case Shutdown => forall k :: k in c.keys ==> Applied(s, k, Kill())
    case Restore => c.init.Some? && c.location != "" && Applied(s, c.init.value, Recover(c))
    case Finished =>
      && c.init.Some? && c.ip != "" && Applied(s, c.init.value, Boot())
      && (forall k :: k in c.keys && k != c.init.value ==> Applied(s, k, Join(c)))
    case _ => false
  }

  /** `forward`: plans are written in turn only, which is what a controller does whose
      reads of the restore object, however stale, never go back (see the module StaleReads).
      Without it a plan may be written out of turn. */
  predicate Enabled(forward: bool, c: Scope, s: State, e: Event) {
    match e
    case Agent(k, a) => k in s.nodes && CanAct(s.nodes[k], a)
    case EditRestore(labels, deleting) => s.restore.deleting ==> deleting
    case EditCluster => true
    case Pause => !s.paused
    case Unpause => s.paused && s.restore.status.phase == Finished
    case WritePlan(k, p) =>
      && k in c.keys && k in s.nodes && s.paused && PlanOf(s.nodes[k]) != Some(p)
      && Known(c, k, p) && (forward ==> Due(c, s, k, p))
    case Persist(status) =>
      && status.conditions == s.restore.status.conditions
      && Edge(s.restore.status.phase, status.phase)
      && (status.phase == Shutdown ==> s.paused)
      && (forward ==> Earned(c, s, status.phase))
  }

  function Effect(s: State, e: Event): State {
    match e
    case Agent(k, a) =>
      if k in s.nodes && CanAct(s.nodes[k], a) then s.(nodes := s.nodes[k := AfterAct(s.nodes[k], a)]) else s
    case EditRestore(labels, deleting) =>
      s.(restore := s.restore.(labels := labels, deleting := deleting), version := s.version + 1)
    case EditCluster => s.(clusterVersion := s.clusterVersion + 1)
    case Pause => s.(paused := true, clusterVersion := s.clusterVersion + 1)
    case Unpause => s.(paused := false, clusterVersion := s.clusterVersion + 1)
    case WritePlan(k, p) =>
      if k in s.nodes then s.(nodes := s.nodes[k := AfterWrite(s.nodes[k], p)]) else s
    case Persist(status) => s.(restore := s.restore.(status := status), version := s.version + 1)
  }

  // ---- Runs -----------------------------------------------------------------------------

  /** The machine may be handed to a restore: an acknowledged kill-all was the last
      thing it executed, and no other plan can still be picked up behind it. */
  predicate Quiet(n: Node) {
    && (SumOf(n) == HexSha(Kill()) ==>
          n.work.None? && !n.host.running && (PlanOf(n).None? || PlanOf(n) == Some(Kill())))
    && (n.work.Some? && n.work.value.plan == Kill() ==>
          n.attempt == Some(Kill()) && (PlanOf(n).None? || PlanOf(n) == Some(Kill())))
  }

  /** What `attempt`, `base` and `cuts` say about the host. */
  predicate Tracked(n: Node) {
    && (n.work.Some? ==> n.work.value.pc <= |n.work.value.plan| && SumOf(n) != HexSha(n.work.value.plan))
    && (n.attempt.Some? ==>
          var p := n.attempt.value;
          && Cuts(p, n.cuts)
          && (n.work.Some? ==>
                && n.work.value.plan == p
                && n.host == ExecAll(p[..n.work.value.pc], Attempts(p, n.cuts, n.base)))
          && (n.work.None? && SumOf(n) != HexSha(p) ==> n.host == Attempts(p, n.cuts, n.base))
          && (n.work.None? && SumOf(n) == HexSha(p) ==> n.host == ExecAll(p, Attempts(p, n.cuts, n.base))))
  }

  predicate NewNode(n: Node) {
    && Tracked(n) && Quiet(n) && n.written == [] && n.done == []
    && (SumOf(n) == HexSha(Kill()) ==> n.base == n.host)
  }

  predicate Initial(c: Scope, s: State) {
    && WellFormed(c)
    && s.restore.status.phase == NoPhase
    && (forall k :: k in c.keys ==> k in s.nodes && NewNode(s.nodes[k]))
  }

  datatype Trace = Begin(s: State) | Then(before: Trace, e: Event)

  function Last(t: Trace): State {
    match t
    case Begin(s) => s
    case Then(before, e) => Effect(Last(before), e)
  }

  predicate IsRun(forward: bool, c: Scope, t: Trace) {
    match t
    case Begin(s) => Initial(c, s)
    case Then(before, e) => IsRun(forward, c, before) && Enabled(forward, c, Last(before), e)
  }

  /** `later` is `t` followed by any number of further events. */
  predicate Extends(t: Trace, later: Trace) {
    t == later || (later.Then? && Extends(t, later.before))
  }

  lemma {:induction false} ExtendsTransitive(a: Trace, b: Trace, d: Trace)
    requires Extends(a, b) && Extends(b, d)
    ensures Extends(a, d)
    decreases d
  {
    if b != d {
      ExtendsTransitive(a, b, d.before);
    }
  }
}
