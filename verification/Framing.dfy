/** What a pass of the controller can rely on while agents and other clients act. */
module Framing {
  import opened Objects
  import opened Instructions
  import opened Protocol
  import opened Safety
  import opened Guarantees
  import opened StaleReads

  // ---- From the API objects to a restore's scope -----------------------------------------

  /** List with namespace and cluster-name label. */
  function Listed(all: seq<Machine>, namespace: string, cluster: string): (r: seq<Machine>)
    ensures forall m :: m in r <==> m in all && m.namespace == namespace && m.clusterLabel == cluster
  {
    if all == [] then []
    else if all[0].namespace == namespace && all[0].clusterLabel == cluster
    then [all[0]] + Listed(all[1..], namespace, cluster)
    else Listed(all[1..], namespace, cluster)
  }

  function FirstNamed(machines: seq<Machine>, name: string): (r: Option<Machine>)
    ensures r.Some? ==> r.value in machines && r.value.name == name
    ensures r.None? ==> forall m :: m in machines ==> m.name != name
  {
    if machines == [] then None
    else if machines[0].name == name then Some(machines[0])
    else FirstNamed(machines[1..], name)
  }

  /** The first internal address, or the empty string. */
  function InternalIP(addresses: seq<Address>): string {
    if addresses == [] then ""
    else if addresses[0].kind == "InternalIP" then addresses[0].address
    else InternalIP(addresses[1..])
  }

  /** Which one it is, if there is one. */
  lemma {:induction false} InternalIPIsFirst(addresses: seq<Address>)
    ensures (exists a :: a in addresses && a.kind == "InternalIP")
        ==> exists i :: 0 <= i < |addresses| && addresses[i].kind == "InternalIP"
              && addresses[i].address == InternalIP(addresses)
              && forall j :: 0 <= j < i ==> addresses[j].kind != "InternalIP"
    ensures (forall a :: a in addresses ==> a.kind != "InternalIP") ==> InternalIP(addresses) == ""
  {
    if addresses != [] && addresses[0].kind != "InternalIP" {
      var rest := addresses[1..];
      InternalIPIsFirst(rest);
      if a :| a in addresses && a.kind == "InternalIP" {
        assert a in rest;
        var i :| 0 <= i < |rest| && rest[i].kind == "InternalIP" && rest[i].address == InternalIP(rest)
          && forall j :: 0 <= j < i ==> rest[j].kind != "InternalIP";
        assert addresses[i + 1] == rest[i];
        forall j | 0 <= j < i + 1 ensures addresses[j].kind != "InternalIP" {
          assert j > 0 ==> addresses[j] == rest[j - 1];
        }
      }
    }
  }

  function Keys(machines: seq<Machine>): (r: seq<Key>)
    ensures |r| == |machines|
  {
    seq(|machines|, i requires 0 <= i < |machines| => machines[i].configName)
  }

  function ScopeOf(machines: seq<Machine>, backup: Backup): Scope {
    var init := FirstNamed(machines, backup.machineName);
    Scope(Keys(machines), if init.None? then None else Some(init.value.configName), backup.location,
          if init.None? then "" else InternalIP(init.value.addresses))
  }

  predicate Distinct(machines: seq<Machine>) {
    forall i, j :: 0 <= i < j < |machines| ==>
      machines[i].name != machines[j].name && machines[i].configName != machines[j].configName
  }

  // ---- Runs, taken as a whole ---------------------------------------------------------------

  predicate Ask(i: int) { true }

  /** `t` is a run that ends in `s`. The quantifier keeps the definition of runs out of
      the proofs about the controller's code, which only ever extend a run. */
  ghost predicate Legal(forward: bool, c: Scope, t: Trace, s: State) {
    forall i {:trigger Ask(i)} :: Ask(i) ==> IsRun(forward, c, t) && Last(t) == s
  }

  lemma LegalIsRun(forward: bool, c: Scope, t: Trace, s: State)
    ensures Legal(forward, c, t, s) <==> IsRun(forward, c, t) && Last(t) == s
  {
    assert Ask(0);
  }

  lemma LegalInv(c: Scope, t: Trace, s: State)
    requires Legal(true, c, t, s)
    ensures Inv(c, s)
  {
    LegalIsRun(true, c, t, s);
    RunKeepsInv(c, t);
  }

  /** One more step. */
  lemma LegalStep(forward: bool, c: Scope, t: Trace, s: State, e: Event)
    requires Legal(forward, c, t, s) && Enabled(forward, c, s, e)
    ensures Legal(forward, c, Then(t, e), Effect(s, e)) && Extends(t, Then(t, e))
    ensures Rank(s.restore.status.phase) <= Rank(Effect(s, e).restore.status.phase)
    ensures Effect(s, e).restore.status.conditions == s.restore.status.conditions
    ensures Effect(s, e).restore.spec == s.restore.spec
    ensures s.restore.deleting ==> Effect(s, e).restore.deleting
  {
    LegalIsRun(forward, c, t, s);
    LegalIsRun(forward, c, Then(t, e), Effect(s, e));
    PhaseMovesForward(forward, c, t, t);
  }

  lemma LegalPhase(forward: bool, c: Scope, t: Trace, s: State)
    requires Legal(forward, c, t, s)
    ensures Reached(s.restore.status.phase) && PauseInv(s)
  {
    LegalIsRun(forward, c, t, s);
    PhaseMovesForward(forward, c, t, t);
  }

  /** The stored versions of the restore object: their phases only move forward, and one
      that is being deleted stays so. */
  ghost predicate Rising(versions: seq<RestoreObject>) {
    forall i {:trigger Ask(i)} :: Ask(i) ==>
      forall j, k :: 0 <= j <= k < |versions| ==> Follows(versions[j], versions[k])
  }

  predicate Follows(a: RestoreObject, b: RestoreObject) {
    Rank(a.status.phase) <= Rank(b.status.phase) && (a.deleting ==> b.deleting)
  }

  lemma RisingNext(versions: seq<RestoreObject>, next: RestoreObject)
    requires Rising(versions) && forall i :: 0 <= i < |versions| ==> Follows(versions[i], next)
    ensures Rising(versions + [next])
  {
    assert Ask(0);
  }

  lemma RisingAt(versions: seq<RestoreObject>, j: int, k: int)
    requires Rising(versions) && 0 <= j <= k < |versions|
    ensures Follows(versions[j], versions[k])
  {
    assert Ask(0);
  }

  /** The machines, and what a pass over them works with, do not change. */
  ghost predicate Fixed(c: Scope, machines: seq<Machine>, backup: Backup) {
    forall i {:trigger Ask(i)} :: Ask(i) ==> Distinct(machines) && c == ScopeOf(machines, backup)
  }

  lemma FixedScope(c: Scope, machines: seq<Machine>, backup: Backup)
    ensures Fixed(c, machines, backup) <==> Distinct(machines) && c == ScopeOf(machines, backup)
    ensures Fixed(c, machines, backup) ==> WellFormed(c)
  {
    assert Ask(0);
    if c == ScopeOf(machines, backup) {
      var init := FirstNamed(machines, backup.machineName);
      if init.Some? {
        var i :| 0 <= i < |machines| && machines[i] == init.value;
        assert c.keys[i] == init.value.configName;
      }
    }
  }

  lemma ScopeInit(c: Scope, machines: seq<Machine>, backup: Backup)
    requires Fixed(c, machines, backup)
    ensures WellFormed(c) && c.location == backup.location
    ensures c.init.Some? <==> FirstNamed(machines, backup.machineName).Some?
    ensures c.init.Some? ==>
              && c.init.value == FirstNamed(machines, backup.machineName).value.configName
              && c.ip == InternalIP(FirstNamed(machines, backup.machineName).value.addresses)
    ensures c.init.None? ==> c.ip == ""
  {
    assert Ask(0);
    FixedScope(c, machines, backup);
  }

  /** A listed machine has the init machine's name only if it is the init machine. */
  lemma NamedLikeInit(c: Scope, machines: seq<Machine>, backup: Backup, init: Machine, i: nat)
    requires Fixed(c, machines, backup) && i < |machines| && i < |c.keys|
    requires FirstNamed(machines, backup.machineName) == Some(init)
    ensures machines[i].name == init.name <==> c.init == Some(c.keys[i])
  {
    assert Ask(0);
    var j :| 0 <= j < |machines| && machines[j] == init;
    ScopeKeys(c, machines, backup, i);
    if i < j || j < i {
      assert machines[i].name != machines[j].name && machines[i].configName != machines[j].configName;
    }
  }

  lemma ScopeKeys(c: Scope, machines: seq<Machine>, backup: Backup, i: nat)
    requires Fixed(c, machines, backup) && i <= |machines|
    ensures |c.keys| == |machines| && (i < |machines| ==> c.keys[i] == machines[i].configName)
  {
    assert Ask(0);
  }

  // ---- Frames ---------------------------------------------------------------------------

  /** What is left of a machine the controller does not write to. */
  predicate NodeFrame(n: Node, m: Node) {
    && PlanOf(m) == PlanOf(n) && m.written == n.written
    && m.secret.version >= n.secret.version
    && (m.secret.version == n.secret.version ==> m.secret == n.secret)
    && (m.secret.data.Nil? ==> n.secret.data.Nil?)
    && (Quiescent(n) ==> m == n)
  }

  /** The controller wrote to no other machines than `keys`, and nobody changed the
      persisted status or the spec. */
  predicate Frame(s: State, t: State, keys: set<Key>) {
    && t.restore.status == s.restore.status && t.restore.spec == s.restore.spec
    && t.version >= s.version && (t.version == s.version ==> t.restore == s.restore)
    && t.clusterVersion >= s.clusterVersion
    && t.nodes.Keys == s.nodes.Keys
    && (forall k {:trigger NodeFrame(s.nodes[k], t.nodes[k])} ::
          k in s.nodes && k !in keys ==> NodeFrame(s.nodes[k], t.nodes[k]))
  }

  predicate Untouched(s: State, t: State) { Frame(s, t, {}) && t.paused == s.paused }

  /** What agents and clients other than this controller do. */
  predicate Outside(e: Event) { e.Agent? || e.EditRestore? || e.EditCluster? }

  lemma OutsideIsUntouched(forward: bool, c: Scope, s: State, e: Event)
    requires Outside(e) && Enabled(forward, c, s, e)
    ensures Untouched(s, Effect(s, e))
  {
  }

  lemma FrameTransitive(s: State, t: State, u: State, a: set<Key>, b: set<Key>, keys: set<Key>)
    requires Frame(s, t, a) && Frame(t, u, b) && a <= keys && b <= keys
    ensures Frame(s, u, keys)
  {
    forall k | k in s.nodes && k !in keys ensures NodeFrame(s.nodes[k], u.nodes[k]) {
      assert NodeFrame(s.nodes[k], t.nodes[k]) && NodeFrame(t.nodes[k], u.nodes[k]);
    }
  }

  lemma UntouchedTransitive(s: State, t: State, u: State)
    requires Untouched(s, t) && Untouched(t, u)
    ensures Untouched(s, u)
  {
    FrameTransitive(s, t, u, {}, {}, {});
  }

  // ---- What stays true while others act -----------------------------------------------------

  /** `read` is in turn; hidden like the definition of runs. */
  ghost predicate InStep(c: Scope, s: State, read: Phase) {
    forall i {:trigger Ask(i)} :: Ask(i) ==> InTurn(c, s, read)
  }

  lemma InStepIsInTurn(c: Scope, s: State, read: Phase)
    ensures InStep(c, s, read) <==> InTurn(c, s, read)
  {
    assert Ask(0);
  }

  /** A new object counts as started. */
  lemma OpenedInStep(c: Scope, s: State)
    ensures InStep(c, s, NoPhase) <==> InStep(c, s, Started)
  {
    assert Ask(0);
  }

  /** What a pass may make of the phase it found: keep it, or move on along an edge whose
      condition is met. */
  ghost predicate MayPersist(forward: bool, c: Scope, s: State, found: Phase, computed: Phase) {
    forall i {:trigger Ask(i)} :: Ask(i) ==> computed == found || Moves(forward, c, s, found, computed)
  }

  predicate Moves(forward: bool, c: Scope, s: State, found: Phase, computed: Phase) {
    Edge(found, computed) && (forward ==> Earned(c, s, computed)) && (computed == Shutdown ==> s.paused)
  }

  lemma MayPersistStays(forward: bool, c: Scope, t0: Trace, s: State, t: State, found: Phase, computed: Phase)
    requires Legal(forward, c, t0, s) && Untouched(s, t) && MayPersist(forward, c, s, found, computed)
    requires forward ==> InStep(c, s, found)
    ensures MayPersist(forward, c, t, found, computed)
  {
    assert Ask(0);
    if forward && computed != found && computed != Started {
      EarnedStays(c, t0, s, t, computed);
    }
  }

  lemma MayPersistEnabled(forward: bool, c: Scope, s: State, status: RestoreStatus)
    requires MayPersist(forward, c, s, s.restore.status.phase, status.phase)
    requires status.conditions == s.restore.status.conditions && status != s.restore.status
    ensures Enabled(forward, c, s, Persist(status))
  {
    assert Ask(0);
  }

  /** A new object counts as started before anything else happens. */
  lemma StartedMayPersist(forward: bool, c: Scope, s: State, found: Phase, computed: Phase)
    requires MayPersist(forward, c, s, if found == NoPhase then Started else found, computed)
    ensures MayPersist(forward, c, s, found, computed)
  {
    assert Ask(0);
  }

  /** The handler may go for this plan on this machine: it is its turn, or the secret has it
      already, as far as the reads do not go back. */
  ghost predicate MayWrite(forward: bool, c: Scope, s: State, k: Key, p: Plan) {
    forall i {:trigger Ask(i)} :: Ask(i) ==> Known(c, k, p) && (forward ==> Due(c, s, k, p) || Already(s, k, p))
  }

  predicate Already(s: State, k: Key, p: Plan) {
    Has(s.nodes, k, p) && (Early(s.restore.status.phase) ==> p == Kill())
  }

  /** The handler of the phase that was read goes for its plans only. */
  lemma InStepMayWrite(forward: bool, c: Scope, s: State, read: Phase, k: Key, p: Plan)
    requires k in c.keys && Known(c, k, p)
    requires forward ==> InStep(c, s, read) && DueAt(c, s, read, k, p)
    ensures MayWrite(forward, c, s, k, p)
  {
    assert Ask(0);
    if forward && !Current(s, read) {
      InPlace(c, s, read, k, p);
    }
  }

  /** Others, and a write that was no change, leave a phase in turn. */
  lemma InStepStays(c: Scope, t0: Trace, s: State, t: State, read: Phase)
    requires Legal(true, c, t0, s) && InStep(c, s, read) && Frame(s, t, {})
    ensures InStep(c, t, read)
  {
    assert Ask(0);
    if Overtaken(c, s, read) {
      EarnedStays(c, t0, s, t, s.restore.status.phase);
    }
  }

  /** So does the handler of that phase with any of its plans. */
  lemma InStepAfter(c: Scope, t0: Trace, s: State, t: State, read: Phase, k: Key, p: Plan)
    requires Legal(true, c, t0, s) && InStep(c, s, read) && DueAt(c, s, read, k, p) && k in c.keys
    requires Frame(s, t, {k}) && (Has(s.nodes, k, p) ==> Frame(s, t, {}))
    ensures InStep(c, t, read)
  {
    assert Ask(0);
    if !Current(s, read) {
      InPlace(c, s, read, k, p);
      InStepStays(c, t0, s, t, read);
    }
  }

  /** An acknowledgement of this plan can be relied on in the current phase. */
  ghost predicate Final(c: Scope, s: State, p: Plan) {
    forall i {:trigger Ask(i)} :: Ask(i) ==>
      && (p == Kill() || p == Recover(c) || p == Boot() || p == Join(c))
      && (Early(s.restore.status.phase) ==> p == Kill())
  }

  lemma MayWriteFinal(c: Scope, s: State, k: Key, p: Plan)
    requires MayWrite(true, c, s, k, p)
    ensures Final(c, s, p)
  {
    assert Ask(0);
  }

  lemma FinalStays(c: Scope, s: State, t: State, p: Plan)
    requires Final(c, s, p) && t.restore.status == s.restore.status
    ensures Final(c, t, p)
  {
    assert Ask(0);
  }

  lemma MayWriteJoin(forward: bool, c: Scope, s: State, k: Key)
    requires c.init.Some? && c.init != Some(k) && c.ip != ""
    requires k in c.keys
    requires forward ==> InStep(c, s, Phase.Restore) && Applied(s, c.init.value, Boot())
    ensures MayWrite(forward, c, s, k, Join(c))
  {
    assert Ask(0);
    InStepMayWrite(forward, c, s, Phase.Restore, k, Join(c));
  }

  lemma BootStays(c: Scope, t0: Trace, s: State, t: State, k: Key)
    requires Legal(true, c, t0, s) && InStep(c, s, Phase.Restore) && Frame(s, t, {k})
    requires c.init.Some? && c.init != Some(k) && c.init.value in c.keys && Applied(s, c.init.value, Boot())
    ensures Applied(t, c.init.value, Boot())
  {
    assert Ask(0);
    assert Final(c, s, Boot());
    AppliedStays(c, t0, s, t, {k}, c.init.value, Boot());
  }

  lemma InitSecretExists(c: Scope, t: Trace, s: State)
    requires Legal(true, c, t, s) && InStep(c, s, Phase.Restore)
    ensures c.init.Some? && c.init.value in s.nodes && !s.nodes[c.init.value].secret.data.Nil?
  {
    assert Ask(0);
    LegalIsRun(true, c, t, s);
    StartNeverWritesNilMap(c, t);
  }

  /** With the init machine's start acknowledged, all agents are idle again. */
  lemma SettledBesides(c: Scope, t0: Trace, s: State, t: State, i: Key)
    requires Legal(true, c, t0, t) && Settled(c, s) && Frame(s, t, {i}) && i in c.keys
    requires InStep(c, t, Phase.Restore) && Applied(t, i, Boot())
    ensures Settled(c, t)
    ensures forall k :: k in c.keys && k != i ==> t.nodes[k] == s.nodes[k]
  {
    assert Ask(0);
    assert Final(c, t, Boot());
    AppliedQuiescent(c, t0, t, i, Boot());
    forall k | k in c.keys && k != i ensures k in t.nodes && t.nodes[k] == s.nodes[k] {
      assert NodeFrame(s.nodes[k], t.nodes[k]);
    }
  }

  lemma AppliedQuiescent(c: Scope, t: Trace, s: State, k: Key, p: Plan)
    requires Legal(true, c, t, s) && k in c.keys && Applied(s, k, p) && Final(c, s, p)
    ensures Quiescent(s.nodes[k])
  {
    assert Ask(0);
    LegalInv(c, t, s);
    HeldIsQuiescent(c, s, k, p);
  }

  lemma MayWriteEnabled(forward: bool, c: Scope, s: State, k: Key, p: Plan)
    requires MayWrite(forward, c, s, k, p) && k in c.keys && k in s.nodes && s.paused && PlanOf(s.nodes[k]) != Some(p)
    ensures Enabled(forward, c, s, WritePlan(k, p))
  {
    assert Ask(0);
  }

  /** An acknowledged plan stays acknowledged until the controller writes another one. */
  lemma AppliedStays(c: Scope, t0: Trace, s: State, t: State, keys: set<Key>, k: Key, p: Plan)
    requires Legal(true, c, t0, s) && Frame(s, t, keys) && k in c.keys && k !in keys
    requires Applied(s, k, p) && Final(c, s, p)
    ensures k in t.nodes && t.nodes[k] == s.nodes[k] && Applied(t, k, p)
  {
    assert Ask(0);
    LegalInv(c, t0, s);
    HeldIsQuiescent(c, s, k, p);
    assert NodeFrame(s.nodes[k], t.nodes[k]);
  }

  lemma MayWriteStays(forward: bool, c: Scope, t0: Trace, s: State, t: State, k: Key, p: Plan)
    requires Legal(forward, c, t0, s) && Frame(s, t, {}) && MayWrite(forward, c, s, k, p)
    ensures MayWrite(forward, c, t, k, p)
  {
    assert Ask(0);
    PlansDiffer(c);
    if forward && Already(s, k, p) {
      assert NodeFrame(s.nodes[k], t.nodes[k]);
    } else if forward && p == Join(c) {
      LegalInv(c, t0, s);
      assert Final(c, s, Boot());
      AppliedStays(c, t0, s, t, {}, c.init.value, Boot());
    }
  }

  lemma EarnedStays(c: Scope, t0: Trace, s: State, t: State, phase: Phase)
    requires Legal(true, c, t0, s) && Frame(s, t, {}) && Earned(c, s, phase)
    requires Edge(s.restore.status.phase, phase) || phase == s.restore.status.phase
    ensures Earned(c, t, phase)
  {
    LegalInv(c, t0, s);
    match phase
    case Shutdown =>
      forall k | k in c.keys ensures Applied(t, k, Kill()) {
        AppliedStays(c, t0, s, t, {}, k, Kill());
      }
    case Restore => AppliedStays(c, t0, s, t, {}, c.init.value, Recover(c));
    case Finished =>
      AppliedStays(c, t0, s, t, {}, c.init.value, Boot());
      forall k | k in c.keys && k != c.init.value ensures Applied(t, k, Join(c)) {
        AppliedStays(c, t0, s, t, {}, k, Join(c));
      }
    case _ =>
  }

  /** A state the controller has not touched comes with no further plan writes. */
  lemma SameWrites(forward: bool, c: Scope, t: Trace, later: Trace)
    requires IsRun(forward, c, t) && IsRun(forward, c, later) && Untouched(Last(t), Last(later))
    ensures Writes(later) == Writes(t)
  {
    WritesAreRecorded(forward, c, t);
    WritesAreRecorded(forward, c, later);
    forall k | k in c.keys ensures WriteCounts(Last(t))[k] == WriteCounts(Last(later))[k] {
      assert NodeFrame(Last(t).nodes[k], Last(later).nodes[k]);
    }
    TotalAgrees(c.keys, WriteCounts(Last(t)), WriteCounts(Last(later)));
  }

  // ---- Stages -----------------------------------------------------------------------------

  predicate Has(nodes: map<Key, Node>, k: Key, p: Plan) { k in nodes && PlanOf(nodes[k]) == Some(p) }

  predicate AllHave(c: Scope, nodes: map<Key, Node>, p: Plan) { forall k :: k in c.keys ==> Has(nodes, k, p) }

  predicate OthersHave(c: Scope, nodes: map<Key, Node>, p: Plan) {
    forall k :: k in c.keys && c.init != Some(k) ==> Has(nodes, k, p)
  }

  predicate InitHas(c: Scope, nodes: map<Key, Node>, p: Plan) { c.init.Some? && Has(nodes, c.init.value, p) }

  /** How many rounds a restore still needs at most if nothing fails. */
  function Stage(c: Scope, nodes: map<Key, Node>, phase: Phase): nat {
    match phase
    case NoPhase => if AllHave(c, nodes, Kill()) then 6 else 7
    case Started => if AllHave(c, nodes, Kill()) then 6 else 7
    case Shutdown => if InitHas(c, nodes, Recover(c)) then 4 else 5
    case Restore =>
      if !InitHas(c, nodes, Boot()) then 3
      else if OthersHave(c, nodes, Join(c)) then 1 else 2
    case _ => 0
  }

  predicate Settled(c: Scope, s: State) {
    forall k :: k in c.keys ==> k in s.nodes && Quiescent(s.nodes[k])
  }

  /** A pass that found phase `p` and ended with phase `q` has got somewhere. */
  ghost predicate Advances(c: Scope, before: map<Key, Node>, p: Phase, after: map<Key, Node>, q: Phase) {
    forall i {:trigger Ask(i)} :: Ask(i) ==> Stage(c, after, q) < Stage(c, before, p)
  }

  /** Only the controller's own writes and phase changes move the stage. */
  lemma StageStays(c: Scope, s: State, t: State, phase: Phase)
    requires Frame(s, t, {}) && (forall k :: k in c.keys ==> k in s.nodes)
    requires c.init.Some? ==> c.init.value in c.keys
    ensures Stage(c, t.nodes, phase) == Stage(c, s.nodes, phase)
  {
    forall k, p | k in c.keys ensures Has(t.nodes, k, p) == Has(s.nodes, k, p) {
      assert NodeFrame(s.nodes[k], t.nodes[k]);
    }
  }

  /** While only others act, idle agents stay idle and the stage stays. */
  lemma OthersKeepStage(c: Scope, s: State, t: State, phase: Phase)
    requires Frame(s, t, {}) && (forall k :: k in c.keys ==> k in s.nodes)
    requires c.init.Some? ==> c.init.value in c.keys
    ensures Settled(c, s) ==> Settled(c, t)
    ensures forall after, q :: Advances(c, t.nodes, phase, after, q) ==> Advances(c, s.nodes, phase, after, q)
    ensures Frame(s, t, AllKeys(c))
  {
    FrameTransitive(s, t, t, {}, {}, AllKeys(c));
    StageStays(c, s, t, phase);
    if Settled(c, s) {
      SettledStays(c, s, t);
    }
  }

  lemma SettledStays(c: Scope, s: State, t: State)
    requires Settled(c, s) && Frame(s, t, {})
    ensures Settled(c, t)
    ensures forall k :: k in c.keys ==> t.nodes[k] == s.nodes[k]
  {
    forall k | k in c.keys ensures k in t.nodes && t.nodes[k] == s.nodes[k] {
      assert NodeFrame(s.nodes[k], t.nodes[k]);
    }
  }

  // ---- What was seen ------------------------------------------------------------------------

  /** At some point between the two moments the plan was not acknowledged. */
  predicate Lagged(since: Trace, now: Trace, k: Key, p: Plan) {
    !Applied(Last(now), k, p) || (now != since && now.Then? && Lagged(since, now.before, k, p))
  }

  lemma {:induction false} LaggedLater(since: Trace, mid: Trace, now: Trace, k: Key, p: Plan)
    requires Extends(since, mid) && Extends(mid, now) && Lagged(since, mid, k, p)
    ensures Lagged(since, now, k, p)
    decreases now
  {
    if mid != now {
      LaggedLater(since, mid, now.before, k, p);
      ExtendsTransitive(since, mid, now.before);
      LongerIsDifferent(since, now.before, now.e);
    }
  }

  function Length(t: Trace): nat { if t.Begin? then 0 else 1 + Length(t.before) }

  lemma {:induction false} ExtendsLength(t: Trace, later: Trace)
    requires Extends(t, later)
    ensures Length(t) <= Length(later)
    decreases later
  {
    if t != later {
      ExtendsLength(t, later.before);
    }
  }

  lemma LongerIsDifferent(since: Trace, t: Trace, e: Event)
    requires Extends(since, t)
    ensures Then(t, e) != since
  {
    ExtendsLength(since, t);
  }

  lemma {:induction false} LaggedWider(since: Trace, mid: Trace, now: Trace, k: Key, p: Plan)
    requires Extends(since, mid) && Extends(mid, now) && Lagged(mid, now, k, p)
    ensures Lagged(since, now, k, p)
    decreases now
  {
    if Applied(Last(now), k, p) {
      LaggedWider(since, mid, now.before, k, p);
      ExtendsTransitive(since, mid, now.before);
      LongerIsDifferent(since, now.before, now.e);
    }
  }

  // ---- Sweeping over the machines -----------------------------------------------------------

  /** The machines among the first `n`, without the one to skip. */
  function Swept(c: Scope, n: nat, skip: Option<Key>): set<Key>
    requires n <= |c.keys|
  {
    set j | 0 <= j < n && skip != Some(c.keys[j]) :: c.keys[j]
  }

  lemma SweptNext(c: Scope, n: nat, skip: Option<Key>)
    requires WellFormed(c) && n < |c.keys|
    ensures c.keys[n] !in Swept(c, n, skip)
    ensures Swept(c, n + 1, skip) == Swept(c, n, skip) + (if skip == Some(c.keys[n]) then {} else {c.keys[n]})
  {
  }

  /** A loop over the machines started from state `s0` and has got to state `s`: it has
      handed `plan` to the first `n` machines; if `ready`, all of them were seen to
      acknowledge it, else `slow` was seen not to. Machines further on are as the others
      left them. */
  datatype Sweep = Sweep(
    forward: bool, plan: Plan, skip: Option<Key>, s0: State, t0: Trace,
    s: State, t: Trace, n: nat, ready: bool, slow: Key)

  predicate SweepFacts(c: Scope, w: Sweep) {
    && w.n <= |c.keys| && Extends(w.t0, w.t) && Frame(w.s0, w.s, Swept(c, w.n, w.skip))
    && (forall k :: k in Swept(c, w.n, w.skip) ==> Has(w.s.nodes, k, w.plan))
    && (w.forward && w.ready ==> forall k :: k in Swept(c, w.n, w.skip) ==> Applied(w.s, k, w.plan))
    && (!w.ready ==> w.slow in Swept(c, w.n, w.skip) && Lagged(w.t0, w.t, w.slow, w.plan))
  }

  ghost predicate Sweeping(c: Scope, w: Sweep) {
    forall i {:trigger Ask(i)} :: Ask(i) ==> SweepFacts(c, w)
  }

  lemma SweepStart(c: Scope, forward: bool, plan: Plan, skip: Option<Key>, s: State, t: Trace, slow: Key)
    ensures Sweeping(c, Sweep(forward, plan, skip, s, t, s, t, 0, true, slow))
  {
  }

  /** The same loop at another moment. */
  predicate SameLoop(w: Sweep, v: Sweep) {
    v.forward == w.forward && v.plan == w.plan && v.skip == w.skip && v.s0 == w.s0 && v.t0 == w.t0
  }

  lemma SweepSkips(c: Scope, w: Sweep) returns (v: Sweep)
    requires WellFormed(c) && w.n < |c.keys| && w.skip == Some(c.keys[w.n]) && Sweeping(c, w)
    ensures Sweeping(c, v) && SameLoop(w, v)
    ensures v.s == w.s && v.t == w.t && v.n == w.n + 1 && v.ready == w.ready
  {
    assert Ask(0);
    v := w.(n := w.n + 1);
    SweptNext(c, w.n, w.skip);
  }

  /** What one more turn of the loop did: from `s` to `s'`. */
  predicate Turn(c: Scope, w: Sweep, s': State, t': Trace, applied: bool)
    requires w.n < |c.keys|
  {
    var k := c.keys[w.n];
    && Frame(w.s, s', {k}) && Extends(w.t, t') && Has(s'.nodes, k, w.plan)
    && (w.forward && applied ==> Applied(s', k, w.plan))
    && (!applied ==> Lagged(w.t, t', k, w.plan))
  }

  lemma SweepAdvances(c: Scope, w: Sweep, s': State, t': Trace, applied: bool) returns (v: Sweep)
    requires WellFormed(c) && (forall k :: k in c.keys ==> k in w.s.nodes)
    requires w.n < |c.keys| && w.skip != Some(c.keys[w.n]) && Sweeping(c, w)
    requires w.forward ==> Legal(true, c, w.t, w.s) && Final(c, w.s, w.plan)
    requires Turn(c, w, s', t', applied)
    ensures Sweeping(c, v) && SameLoop(w, v)
    ensures v.s == s' && v.t == t' && v.n == w.n + 1 && v.ready == (w.ready && applied)
  {
    assert Ask(0);
    v := w.(s := s', t := t', n := w.n + 1, ready := w.ready && applied,
            slow := if applied then w.slow else c.keys[w.n]);
    var swept, k := Swept(c, w.n, w.skip), c.keys[w.n];
    SweptNext(c, w.n, w.skip);
    ExtendsTransitive(w.t0, w.t, t');
    FrameTransitive(w.s0, w.s, s', swept, {k}, Swept(c, w.n + 1, w.skip));
    forall j | j in swept ensures Has(s'.nodes, j, w.plan) {
      assert NodeFrame(w.s.nodes[j], s'.nodes[j]);
    }
    if w.forward && w.ready {
      forall j | j in swept ensures Applied(s', j, w.plan) {
        AppliedStays(c, w.t, w.s, s', {k}, j, w.plan);
      }
    }
    if !applied {
      LaggedWider(w.t0, w.t, t', k, w.plan);
    } else if !w.ready {
      LaggedLater(w.t0, w.t, t', w.slow, w.plan);
    }
  }

  /** A machine the sweep has not come to yet is as it was if its agent was idle. */
  lemma NotSweptYet(c: Scope, w: Sweep)
    requires WellFormed(c) && Settled(c, w.s0)
    requires w.n < |c.keys| && Sweeping(c, w)
    ensures c.keys[w.n] in w.s.nodes && w.s.nodes[c.keys[w.n]] == w.s0.nodes[c.keys[w.n]]
    ensures Quiescent(w.s.nodes[c.keys[w.n]])
  {
    assert Ask(0);
    SweptNext(c, w.n, w.skip);
    assert NodeFrame(w.s0.nodes[c.keys[w.n]], w.s.nodes[c.keys[w.n]]);
  }

  function AllKeys(c: Scope): set<Key> { set k | k in c.keys }

  /** The loop was left with machine number `reached` failing, or after the last one:
      the machines before it hold the plan, the machines after it were not written to. */
  ghost predicate Delivered(c: Scope, w: Sweep, reached: nat, s: State) {
    forall i {:trigger Ask(i)} :: Ask(i) ==> DeliveredFacts(c, w, reached, s)
  }

  predicate DeliveredFacts(c: Scope, w: Sweep, reached: nat, s: State) {
    && reached <= |c.keys|
    && (forall k :: k in Swept(c, reached, w.skip) ==> Has(s.nodes, k, w.plan))
    && Frame(w.s0, s, Swept(c, if reached < |c.keys| then reached + 1 else reached, w.skip))
  }

  lemma DeliveredAll(c: Scope, w: Sweep, reached: nat, s: State)
    requires Delivered(c, w, reached, s)
    ensures Frame(w.s0, s, AllKeys(c)) && DeliveredFacts(c, w, reached, s)
  {
    assert Ask(0);
    FrameTransitive(w.s0, s, s, Swept(c, if reached < |c.keys| then reached + 1 else reached, w.skip), {}, AllKeys(c));
  }

  lemma SweepFails(c: Scope, w: Sweep, s': State, t': Trace)
    requires WellFormed(c) && w.n < |c.keys| && w.skip != Some(c.keys[w.n]) && Sweeping(c, w)
    requires Frame(w.s, s', {c.keys[w.n]}) && Extends(w.t, t')
    ensures Delivered(c, w, w.n, s') && Extends(w.t0, t')
  {
    assert Ask(0);
    var swept := Swept(c, w.n, w.skip);
    SweptNext(c, w.n, w.skip);
    ExtendsTransitive(w.t0, w.t, t');
    FrameTransitive(w.s0, w.s, s', swept, {c.keys[w.n]}, Swept(c, w.n + 1, w.skip));
    forall k | k in swept ensures Has(s'.nodes, k, w.plan) {
      assert NodeFrame(w.s.nodes[k], s'.nodes[k]);
    }
  }

  lemma SweepEnds(c: Scope, w: Sweep)
    requires w.n == |c.keys| && Sweeping(c, w)
    ensures Delivered(c, w, w.n, w.s) && Extends(w.t0, w.t)
    ensures forall k :: k in c.keys && w.skip != Some(k) ==> Has(w.s.nodes, k, w.plan)
    ensures w.forward && w.ready ==> forall k :: k in c.keys && w.skip != Some(k) ==> Applied(w.s, k, w.plan)
    ensures !w.ready ==> w.slow in c.keys && w.skip != Some(w.slow) && Lagged(w.t0, w.t, w.slow, w.plan)
  {
    assert Ask(0);
    assert forall k :: k in c.keys && w.skip != Some(k) <==> k in Swept(c, |c.keys|, w.skip);
  }

  lemma LaggedNow(forward: bool, c: Scope, since: Trace, now: Trace, s: State, k: Key, p: Plan)
    requires Legal(forward, c, now, s) && !Applied(s, k, p)
    ensures Lagged(since, now, k, p)
  {
    LegalIsRun(forward, c, now, s);
  }

  // ---- Fair agents ----------------------------------------------------------------------------

  /** The steps an agent takes for a plan it has yet to pick up. */
  function ToPickUp(n: Node): int {
    if PlanOf(n).Some? then |PlanOf(n).value| + 2 else 0
  }

  /** What is left for an agent to do before it is idle. */
  function Left(n: Node): int {
    if Quiescent(n) then 0
    else if n.work.None? then ToPickUp(n)
    else |n.work.value.plan| - n.work.value.pc + 1
         + (if PlanOf(n) == Some(n.work.value.plan) then 0 else ToPickUp(n))
  }

  lemma LegalTracked(c: Scope, t: Trace, s: State, k: Key)
    requires Legal(true, c, t, s) && k in c.keys
    ensures k in s.nodes && Tracked(s.nodes[k])
  {
    LegalInv(c, t, s);
    assert NodeInv(c, s, k);
  }

  lemma LessLeft(n: Node, a: Act)
    requires Tracked(n) && CanAct(n, a) && !a.Crash?
    ensures Tracked(AfterAct(n, a)) && 0 <= Left(AfterAct(n, a)) < Left(n)
  {
    ActTracked(n, a);
  }
}
