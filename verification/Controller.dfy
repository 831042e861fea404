/** The restore controller, working through an API server that other clients and the
    agents use at the same time. Every API call first lets them act; every call may
    fail. The server records all that happens as a run of the protocol. */
module Controller {
  import opened Objects
  import opened Instructions
  import opened Protocol
  import opened Safety
  import opened Guarantees
  import opened StaleReads
  import opened Framing
  import opened MergePatch

  /** How a handler ends: done, asked to be called again in 30 seconds, an error, or a
      nil dereference or nil-map write that takes the pass down. */
  datatype Outcome = Complete | Requeue | Error | Panic {
    predicate Returned() { Complete? || Requeue? }
  }

  /** The restore object as the controller holds it in memory. */
  class RestoreCopy {
    var obj: RestoreObject
    var version: nat

    constructor (obj: RestoreObject, version: nat)
      ensures this.obj == obj && this.version == version
    {
      this.obj := obj;
      this.version := version;
    }
  }

  /** The manager's cache of the restore object: the version it holds. */
  class Cache {
    var version: nat

    constructor (version: nat)
      ensures this.version == version
    {
      this.version := version;
    }
  }

  class ClusterCopy {
    var paused: bool
    var version: nat

    constructor (paused: bool, version: nat)
      ensures this.paused == paused && this.version == version
    {
      this.paused := paused;
      this.version := version;
    }
  }

  class PlanSecret {
    const key: Key
    var version: nat
    var data: Data

    constructor (key: Key, version: nat, data: Data)
      ensures this.key == key && this.version == version && this.data == data
    {
      this.key := key;
      this.version := version;
      this.data := data;
    }

    function Plan(): Option<Plan>
      reads this
    {
      if data.Nil? then None else data.plan
    }

    function Checksum(): Sum
      reads this
    {
      if data.Nil? then NoSum else data.sum
    }
  }

  function WithPhase(o: RestoreObject, p: Phase): RestoreObject { o.(status := o.status.(phase := p)) }

  predicate Named(o: RestoreObject) { o.spec.clusterName != "" && o.spec.backupName != "" }

  /** An object without a phase is taken to be started. */
  function Opened(p: Phase): Phase { if p == NoPhase then Started else p }

  /** Where a handler that completes goes from each phase. */
  function NextPhase(p: Phase): Phase {
    match p
    case Started => Shutdown
    case Shutdown => Phase.Restore
    case Restore => Finished
    case _ => p
  }

  /** `isPlanApplied` on plans and checksums; Codec has it on their bytes. */
  predicate IsAcknowledged(plan: Plan, checksum: Sum) { checksum == HexSha(plan) }

  /** The objects one pass works with; `phases` are the phases the machines were listed in,
      and `initMachine` is None for the empty machine the search starts from. */
  datatype MachineScope = MachineScope(
    cluster: ClusterCopy, machines: seq<Machine>, phases: seq<string>, initMachine: Option<Machine>, backup: Backup)

  predicate AllRunning(phases: seq<string>) { forall i :: 0 <= i < |phases| ==> phases[i] == "Running" }

  class ApiServer {
    /** The cache of the restore object, however stale, never goes back. */
    const forward: bool
    /** No call fails, caches are up to date and only agents act besides the controller. */
    const calm: bool
    const namespace: string
    const inventory: seq<Machine>
    const backup: Backup

    var st: State
    var versions: seq<RestoreObject>
    ghost var trace: Trace

    const c: Scope
    const machines: seq<Machine>

    /** Each stored version of the restore object is at or behind the current phase, and
        the scope is what the inventory says. */
    ghost predicate Records()
      reads this
    {
      && |versions| == st.version + 1 && versions[st.version] == st.restore
      && (forall i :: 0 <= i < |versions| ==>
            && Rank(versions[i].status.phase) <= Rank(st.restore.status.phase) && Reached(versions[i].status.phase)
            && versions[i].status.conditions == st.restore.status.conditions
            && (versions[i].deleting ==> st.restore.deleting)
            && versions[i].spec == st.restore.spec)
      && Rising(versions)
      && machines == Listed(inventory, namespace, st.restore.spec.clusterName) && Fixed(c, machines, backup)
    }

    ghost predicate Recorded()
      reads this
    {
      forall i {:trigger Ask(i)} :: Ask(i) ==> Records()
    }

    lemma LookUp()
      requires Recorded()
      ensures Records()
    {
      assert Ask(0);
    }

    ghost predicate Valid()
      reads this
    {
      && (calm ==> forward)
      && Legal(forward, c, trace, st)
      && WellFormed(c) && (forall k :: k in c.keys ==> k in st.nodes)
      && Recorded()
    }

    constructor (forward: bool, calm: bool, namespace: string, inventory: seq<Machine>, backup: Backup, st: State)
      requires calm ==> forward
      requires st.version == 0
      requires Distinct(Listed(inventory, namespace, st.restore.spec.clusterName))
      requires Initial(ScopeOf(Listed(inventory, namespace, st.restore.spec.clusterName), backup), st)
      ensures Valid() && this.forward == forward && this.calm == calm && this.st == st && trace == Begin(st)
    {
      this.forward := forward;
      this.calm := calm;
      this.namespace := namespace;
      this.inventory := inventory;
      this.backup := backup;
      this.st := st;
      this.versions := [st.restore];
      this.trace := Begin(st);
      this.machines := Listed(inventory, namespace, st.restore.spec.clusterName);
      this.c := ScopeOf(Listed(inventory, namespace, st.restore.spec.clusterName), backup);
      new;
      FixedScope(c, machines, backup);
      LegalIsRun(forward, c, trace, st);
    }

    // ---- One step of the protocol -------------------------------------------------------

    method Commit(e: Event)
      requires Valid() && Enabled(forward, c, st, e)
      modifies this
      ensures Valid() && st == Effect(old(st), e) && trace == Then(old(trace), e)
      ensures old(versions) <= versions
    {
      LookUp();
      LegalStep(forward, c, trace, st, e);
      trace := Then(trace, e);
      st := Effect(st, e);
      LegalPhase(forward, c, trace, st);
      if e.EditRestore? || e.Persist? {
        RisingNext(versions, st.restore);
        versions := versions + [st.restore];
      }
    }

    /** Agents and other clients take any number of steps. */
    method Interfere()
      requires Valid()
      modifies this
      ensures Valid() && Extends(old(trace), trace) && Untouched(old(st), st)
      ensures old(versions) <= versions
      ensures calm ==> st.version == old(st.version) && st.clusterVersion == old(st.clusterVersion)
    {
      var steps: int := *;
      while steps > 0
        invariant Valid() && Extends(old(trace), trace) && Untouched(old(st), st)
        invariant old(versions) <= versions
        invariant calm ==> st.version == old(st.version) && st.clusterVersion == old(st.clusterVersion)
      {
        var e: Event := *;
        if Outside(e) && Enabled(forward, c, st, e) && (calm ==> e.Agent?) {
          OutsideIsUntouched(forward, c, st, e);
          UntouchedTransitive(old(st), st, Effect(st, e));
          Commit(e);
        }
        steps := steps - 1;
      }
    }

    // ---- API calls ------------------------------------------------------------------------

    /** Whatever else goes on during one API call that writes nothing. */
    twostate predicate OnlyOthers()
      reads this
    {
      && Extends(old(trace), trace) && Untouched(old(st), st) && old(versions) <= versions
      && (calm ==> st.version == old(st.version) && st.clusterVersion == old(st.clusterVersion))
    }

    method CallFails() returns (fails: bool)
      requires Valid()
      modifies this
      ensures Valid() && OnlyOthers()
      ensures calm ==> !fails
    {
      Interfere();
      var trouble: bool := *;
      fails := trouble && !calm;
    }

    /** The server has done what it was asked, but the reply may not come back. */
    method ReplyIsLost() returns (lost: bool)
      ensures calm ==> !lost
    {
      var trouble: bool := *;
      lost := trouble && !calm;
    }

    /** The phase the cache holds is in turn as long as the cache never goes back. */
    ghost predicate InOrder(cache: Cache)
      reads this, cache
    {
      cache.version < |versions| && (forward ==> InStep(c, st, versions[cache.version].status.phase))
    }

    /** A manager that starts fills its cache from the server. */
    method FillCache() returns (cache: Cache)
      requires Valid()
      ensures fresh(cache) && cache.version == st.version && InOrder(cache)
    {
      LookUp();
      cache := new Cache(st.version);
    }

    /** Get of the restore object through the cache, which follows the server in its own
        time; unless `forward`, it may be replaced by an older one. */
    method GetRestore(cache: Cache) returns (r: RestoreCopy?)
      requires Valid() && InOrder(cache)
      modifies this, cache
      ensures Valid() && OnlyOthers() && InOrder(cache)
      ensures forward ==> old(cache.version) <= cache.version
      ensures r != null ==> fresh(r) && r.version == cache.version && r.obj == versions[r.version]
      ensures calm ==> r != null && r.version == st.version
    {
      ghost var s0, t0 := st, trace;
      var fails := CallFails();
      LookUp();
      if forward {
        InStepStays(c, t0, s0, st, versions[cache.version].status.phase);
      }
      if fails {
        return null;
      }
      var version: int := *;
      if (if forward then cache.version else 0) <= version <= st.version && !calm {
        if forward {
          RisingAt(versions, cache.version, version);
          InStepIsInTurn(c, st, versions[cache.version].status.phase);
          Between(c, st, versions[cache.version].status.phase, versions[version].status.phase);
        }
        cache.version := version;
      } else if calm {
        cache.version := st.version;
      }
      r := new RestoreCopy(versions[cache.version], cache.version);
    }

    /** Get of the cluster through the cache. */
    method GetCluster() returns (cluster: ClusterCopy?)
      requires Valid()
      modifies this
      ensures Valid() && OnlyOthers()
      ensures cluster != null ==> fresh(cluster) && cluster.version <= st.clusterVersion
      ensures cluster != null && cluster.version == st.clusterVersion ==> cluster.paused == st.paused
      ensures calm ==> cluster != null && cluster.version == st.clusterVersion
    {
      var fails := CallFails();
      if fails {
        return null;
      }
      var stale: int := *;
      var paused: bool := *;
      if 0 <= stale < st.clusterVersion && !calm {
        cluster := new ClusterCopy(paused, stale);
      } else {
        cluster := new ClusterCopy(st.paused, st.clusterVersion);
      }
    }

    /** Patch of the cluster's paused field, refused if the copy is not the latest. */
    method PatchCluster(cluster: ClusterCopy) returns (ok: bool)
      requires Valid()
      requires !cluster.paused ==> st.restore.status.phase == Finished
      modifies this, cluster
      ensures Valid() && Extends(old(trace), trace) && Frame(old(st), st, {}) && old(versions) <= versions
      ensures calm ==> st.version == old(st.version)
      ensures ok ==> st.paused == old(cluster.paused) && cluster.paused == st.paused
      ensures ok ==> cluster.version == st.clusterVersion
      ensures !ok ==> st.paused == old(st.paused) || st.paused == old(cluster.paused)
      ensures old(cluster.version) < old(st.clusterVersion) ==> !ok && st.paused == old(st.paused)
      ensures calm && old(cluster.version) == old(st.clusterVersion) ==> ok
    {
      var fails := CallFails();
      if fails || cluster.version != st.clusterVersion {
        return false;
      }
      if cluster.paused != st.paused {
        label update:
        Commit(if cluster.paused then Pause else Unpause);
        FrameTransitive(old(st), old@update(st), st, {}, {}, {});
        var lost := ReplyIsLost();
        if lost {
          return false;
        }
      }
      cluster.version := st.clusterVersion;
      ok := true;
    }

    /** The copy is the secret as it is stored now; an empty map stands for a nil one. */
    ghost predicate Current(secret: PlanSecret)
      reads this, secret
    {
      && secret.key in st.nodes && secret.version == st.nodes[secret.key].secret.version
      && secret.Plan() == PlanOf(st.nodes[secret.key]) && secret.Checksum() == SumOf(st.nodes[secret.key])
    }

    /** The RKE2Config by its reference, then the secret named after it, read past any cache. */
    method GetPlanSecretForMachine(machine: Machine) returns (secret: PlanSecret?)
      requires Valid() && machine.configName in c.keys
      modifies this
      ensures Valid() && OnlyOthers()
      ensures secret != null ==> fresh(secret) && secret.key == machine.configName && Current(secret)
      ensures secret != null ==> (secret.data.Nil? <==> st.nodes[secret.key].secret.data.Nil?)
      ensures calm ==> secret != null
    {
      label start:
      var fails := CallFails();
      if fails {
        return null;
      }
      label config:
      fails := CallFails();
      ExtendsTransitive(old(trace), old@config(trace), trace);
      UntouchedTransitive(old(st), old@config(st), st);
      if fails {
        return null;
      }
      var stored := st.nodes[machine.configName].secret;
      secret := new PlanSecret(machine.configName, stored.version, stored.data);
    }

    /** Patch of a plan secret whose copy got a new plan, refused if the secret changed
        since it was read. A patch that fails has had no effect or its whole effect. */
    method PatchSecret(secret: PlanSecret) returns (ok: bool)
      requires Valid() && st.paused && secret.key in c.keys
      requires !secret.data.Nil? && secret.data.plan.Some?
      requires MayWrite(forward, c, st, secret.key, secret.data.plan.value)
      requires secret.version == st.nodes[secret.key].secret.version
      requires PlanOf(st.nodes[secret.key]) != secret.data.plan && SumOf(st.nodes[secret.key]) == secret.data.sum
      modifies this, secret
      ensures Valid() && Extends(old(trace), trace) && old(versions) <= versions && st.paused
      ensures calm ==> st.version == old(st.version) && st.clusterVersion == old(st.clusterVersion)
      ensures Frame(old(st), st, {secret.key})
      ensures !ok ==> Frame(old(st), st, {}) || Has(st.nodes, secret.key, old(secret.data.plan.value))
      ensures !ok ==> secret.data == old(secret.data)
      ensures ok ==> Current(secret) && secret.data == old(secret.data)
      ensures calm && Quiescent(old(st).nodes[secret.key]) ==> ok
    {
      var fails := CallFails();
      var k := secret.key;
      assert NodeFrame(old(st).nodes[k], st.nodes[k]);
      FrameTransitive(old(st), st, st, {}, {}, {k});
      if fails || secret.version != st.nodes[k].secret.version {
        return false;
      }
      MayWriteStays(forward, c, old(trace), old(st), st, k, secret.data.plan.value);
      MayWriteEnabled(forward, c, st, k, secret.data.plan.value);
      label update:
      Commit(WritePlan(k, secret.data.plan.value));
      FrameTransitive(old(st), old@update(st), st, {}, {k}, {k});
      var lost := ReplyIsLost();
      if lost {
        return false;
      }
      secret.version := st.nodes[k].secret.version;
      secret.data := st.nodes[k].secret.data;
      ok := true;
    }

    method UpdatePlanSecretWithPlan(secret: PlanSecret, plan: Plan) returns (res: Outcome)
      requires Valid() && st.paused && secret.key in c.keys && Current(secret)
      requires MayWrite(forward, c, st, secret.key, plan)
      modifies this, secret
      ensures Valid() && Extends(old(trace), trace) && old(versions) <= versions && st.paused
      ensures calm ==> st.version == old(st.version) && st.clusterVersion == old(st.clusterVersion)
      ensures Frame(old(st), st, {secret.key})
      ensures !res.Complete? ==> Frame(old(st), st, {}) || (res.Error? && Has(st.nodes, secret.key, plan))
      ensures !res.Requeue?
      ensures res.Panic? <==> old(secret.data).Nil?
      ensures res.Complete? ==> Current(secret) && secret.Plan() == Some(plan)
      ensures res.Complete? ==> secret.Checksum() == old(secret.Checksum())
      ensures old(secret.Plan()) == Some(plan) ==> res.Complete? && st == old(st)
      ensures calm && Quiescent(old(st).nodes[secret.key]) ==> !res.Error?
    {
      if secret.Plan() != Some(plan) {
        if secret.data.Nil? {
          return Panic;
        }
        secret.data := secret.data.(plan := Some(plan));
        var ok := PatchSecret(secret);
        if !ok {
          return Error;
        }
      }
      res := Complete;
    }

    /** gzip and JSON of the agent's output; the result is only logged. */
    method DecompressPlanOutput() returns (ok: bool)
      requires Valid()
      modifies this
      ensures Valid() && OnlyOthers()
      ensures calm ==> ok
    {
      var fails := CallFails();
      ok := !fails;
    }

    // ---- The scope of a pass -----------------------------------------------------------------

    ghost predicate InScope(scope: MachineScope)
    {
      && scope.machines == machines && scope.backup == backup && |scope.phases| == |machines|
      && (calm ==> AllRunning(scope.phases))
      && scope.initMachine == FirstNamed(machines, backup.machineName)
    }

    /** A copy of the cluster that is not outdated is right. */
    ghost predicate ClusterFits(cluster: ClusterCopy)
      reads this, cluster
    {
      && cluster.version <= st.clusterVersion
      && (cluster.version == st.clusterVersion ==> cluster.paused == st.paused)
      && (calm ==> cluster.version == st.clusterVersion)
    }

    /** The phases the machines are listed in. */
    method ListedPhases(n: nat) returns (phases: seq<string>)
      ensures |phases| == n && (calm ==> AllRunning(phases))
    {
      phases := *;
      if calm || |phases| != n {
        phases := seq(n, _ => "Running");
      }
    }

    method NewScope(rs: RestoreCopy) returns (scope: Option<MachineScope>)
      requires Valid() && rs.obj.spec == st.restore.spec
      modifies this
      ensures Valid() && OnlyOthers()
      ensures scope.Some? ==> InScope(scope.value) && fresh(scope.value.cluster) && ClusterFits(scope.value.cluster)
      ensures !Named(rs.obj) ==> scope.None?
      ensures calm && Named(rs.obj) ==> scope.Some?
    {
      if rs.obj.spec.clusterName == "" || rs.obj.spec.backupName == "" {
        return None;
      }
      var cluster := GetCluster();
      if cluster == null {
        return None;
      }
      label listing:
      var fails := CallFails();
      ExtendsTransitive(old(trace), old@listing(trace), trace);
      UntouchedTransitive(old(st), old@listing(st), st);
      if fails {
        return None;
      }
      LookUp();
      var listed := Listed(inventory, namespace, rs.obj.spec.clusterName);
      label backups:
      fails := CallFails();
      ExtendsTransitive(old(trace), old@backups(trace), trace);
      UntouchedTransitive(old(st), old@backups(st), st);
      if fails {
        return None;
      }
      var initMachine: Option<Machine> := None;
      var i := 0;
      while i < |listed| && initMachine.None?
        invariant 0 <= i <= |listed|
        invariant FirstNamed(listed, backup.machineName)
               == if initMachine.Some? then initMachine else FirstNamed(listed[i..], backup.machineName)
      {
        if listed[i].name == backup.machineName {
          initMachine := Some(listed[i]);
        }
        i := i + 1;
      }
      var phases := ListedPhases(|listed|);
      scope := Some(MachineScope(cluster, listed, phases, initMachine, backup));
    }

    method GetInternalMachineIP(machine: Option<Machine>) returns (ip: string)
      ensures ip == if machine.None? then "" else InternalIP(machine.value.addresses)
    {
      var addresses := if machine.None? then [] else machine.value.addresses;
      var i := 0;
      while i < |addresses|
        invariant 0 <= i <= |addresses|
        invariant InternalIP(addresses) == InternalIP(addresses[i..])
      {
        if addresses[i].kind == "InternalIP" {
          return addresses[i].address;
        }
        i := i + 1;
      }
      ip := "";
    }

    // ---- The phases ---------------------------------------------------------------------------

    /** What every step of a handler keeps. */
    twostate predicate Proceeds(keys: set<Key>)
      reads this
    {
      && Extends(old(trace), trace) && Frame(old(st), st, keys) && old(versions) <= versions && st.paused
      && (calm ==> st.version == old(st.version))
    }

    /** Read the machine's secret and fill it with the plan unless it already holds it.
        Only the start handler's write to the init machine is not guarded against a nil
        map. The copy that comes back is the one the plan was patched into. */
    method FillSecret(machine: Machine, plan: Plan, guarded: bool) returns (res: Outcome, secret: PlanSecret?)
      requires Valid() && st.paused && machine.configName in c.keys
      requires MayWrite(forward, c, st, machine.configName, plan)
      modifies this
      ensures Valid() && Proceeds({machine.configName}) && !res.Requeue?
      ensures Has(old(st).nodes, machine.configName, plan) ==> Frame(old(st), st, {})
      ensures res.Complete? ==> secret != null && fresh(secret) && secret.key == machine.configName
      ensures res.Complete? ==> Current(secret) && secret.Plan() == Some(plan)
      ensures res.Panic? ==> !guarded && old(st).nodes[machine.configName].secret.data.Nil?
      ensures var n := old(st).nodes[machine.configName];
              calm && !guarded && n.secret.data.Nil? && Quiescent(n) ==> res.Panic?
      ensures calm && Quiescent(old(st).nodes[machine.configName]) ==> !res.Error?
      ensures calm && Quiescent(old(st).nodes[machine.configName]) && Has(old(st).nodes, machine.configName, plan) ==>
                res.Complete? && st.nodes[machine.configName] == old(st).nodes[machine.configName]
    {
      var k := machine.configName;
      ghost var s0, t0 := st, trace;
      secret := GetPlanSecretForMachine(machine);
      ghost var s1, t1 := st, trace;
      assert NodeFrame(s0.nodes[k], s1.nodes[k]);
      FrameTransitive(s0, s1, s1, {}, {k}, {k});
      if secret == null {
        return Error, null;
      }
      if guarded && secret.data.Nil? {
        secret.data := Data(None, NoSum);
      }
      MayWriteStays(forward, c, t0, s0, s1, k, plan);
      res := UpdatePlanSecretWithPlan(secret, plan);
      ExtendsTransitive(t0, t1, trace);
      FrameTransitive(s0, s1, st, {}, {k}, {k});
      if Has(s0.nodes, k, plan) {
        FrameTransitive(s0, s1, st, {}, {}, {});
      }
    }

    /** Second half of a turn: read the secret again and see whether the plan is acknowledged. */
    method CheckSecret(machine: Machine, plan: Plan) returns (ok: bool, applied: bool)
      requires Valid() && machine.configName in c.keys && Has(st.nodes, machine.configName, plan)
      requires forward ==> Final(c, st, plan)
      modifies this
      ensures Valid() && OnlyOthers()
      ensures ok && applied && forward ==> Applied(st, machine.configName, plan)
      ensures ok && !applied ==> Lagged(old(trace), trace, machine.configName, plan)
      ensures calm ==> ok
      ensures calm && Applied(old(st), machine.configName, plan) ==> applied
    {
      var k := machine.configName;
      ghost var s0, t0 := st, trace;
      var secret := GetPlanSecretForMachine(machine);
      ghost var s1, t1 := st, trace;
      assert NodeFrame(s0.nodes[k], s1.nodes[k]);
      if secret == null {
        return false, false;
      }
      if calm && Applied(s0, k, plan) {
        AppliedStays(c, t0, s0, s1, {}, k, plan);
      }
      if !IsAcknowledged(plan, secret.Checksum()) {
        LaggedNow(forward, c, t0, trace, st, k, plan);
        return true, false;
      }
      ok := DecompressPlanOutput();
      ExtendsTransitive(t0, t1, trace);
      UntouchedTransitive(s0, s1, st);
      if forward {
        FinalStays(c, s0, s1, plan);
        AppliedStays(c, t1, s1, st, {}, k, plan);
      }
      applied := true;
    }

    /** Fill the machine's secret and look for the acknowledgement. */
    method HandPlanTo(machine: Machine, plan: Plan) returns (ok: bool, applied: bool)
      requires Valid() && st.paused && machine.configName in c.keys
      requires MayWrite(forward, c, st, machine.configName, plan)
      modifies this
      ensures Valid() && Proceeds({machine.configName})
      ensures Has(old(st).nodes, machine.configName, plan) ==> Frame(old(st), st, {})
      ensures ok ==> Has(st.nodes, machine.configName, plan)
      ensures ok && applied && forward ==> Applied(st, machine.configName, plan)
      ensures ok && !applied ==> Lagged(old(trace), trace, machine.configName, plan)
      ensures calm && Quiescent(old(st).nodes[machine.configName]) ==>
                ok && (Has(old(st).nodes, machine.configName, plan) ==> applied)
    {
      var k := machine.configName;
      ghost var s0, t0 := st, trace;
      var res, secret := FillSecret(machine, plan, true);
      ok, applied := res.Complete?, false;
      if ok {
        ghost var s1, t1 := st, trace;
        if forward {
          MayWriteFinal(c, s0, k, plan);
          FinalStays(c, s0, s1, plan);
        }
        ok, applied := CheckSecret(machine, plan);
        ExtendsTransitive(t0, t1, trace);
        FrameTransitive(s0, s1, st, {k}, {}, {k});
        if Frame(s0, s1, {}) {
          FrameTransitive(s0, s1, st, {}, {}, {});
        }
        assert NodeFrame(s1.nodes[k], st.nodes[k]);
        if ok && !applied {
          LaggedWider(t0, t1, trace, k, plan);
        }
      }
    }

    /** The loop behind `w` stands at the current state. */
    ghost predicate At(w: Sweep, n: nat, ready: bool)
      reads this
    {
      Sweeping(c, w) && w.forward == forward && w.s == st && w.t == trace && w.n == n && w.ready == ready
    }

    /** One turn of a loop over the machines. */
    method TakeTurn(machine: Machine, plan: Plan, n: nat, ghost w: Sweep)
      returns (ok: bool, applied: bool, ghost v: Sweep)
      requires Valid() && st.paused && n < |c.keys| && machine.configName == c.keys[n]
      requires At(w, n, w.ready) && w.plan == plan && w.skip != Some(c.keys[n])
      requires MayWrite(forward, c, st, c.keys[n], plan)
      modifies this
      ensures Valid() && st.paused && old(versions) <= versions && (calm ==> st.version == old(st.version))
      ensures st.restore.status == old(st.restore.status) && Frame(old(st), st, {c.keys[n]})
      ensures Has(old(st).nodes, c.keys[n], plan) ==> Frame(old(st), st, {})
      ensures SameLoop(w, v)
      ensures ok ==> At(v, n + 1, w.ready && applied)
      ensures !ok ==> Delivered(c, w, n, st) && Extends(w.t0, trace)
      ensures calm && Settled(c, w.s0) ==> ok && (Has(w.s0.nodes, c.keys[n], plan) ==> applied)
    {
      if calm && Settled(c, w.s0) {
        NotSweptYet(c, w);
      }
      if forward {
        MayWriteFinal(c, st, c.keys[n], plan);
      }
      ok, applied := HandPlanTo(machine, plan);
      if ok {
        v := SweepAdvances(c, w, st, trace, applied);
      } else {
        SweepFails(c, w, st, trace);
        v := w;
      }
    }

    ghost function Kills(s: State, t: Trace): Sweep { Sweep(forward, Kill(), None, s, t, s, t, 0, true, "") }

    /** One turn of the loop over all machines. */
    method KillInStep(machine: Machine, n: nat, ghost w: Sweep) returns (ok: bool, applied: bool, ghost v: Sweep)
      requires Valid() && st.paused && n < |c.keys| && machine.configName == c.keys[n]
      requires At(w, n, w.ready) && w.plan == Kill() && w.skip == None
      requires forward ==> InStep(c, st, Started)
      modifies this
      ensures Valid() && st.paused && old(versions) <= versions && (calm ==> st.version == old(st.version))
      ensures st.restore.status == old(st.restore.status) && SameLoop(w, v)
      ensures forward ==> InStep(c, st, Started)
      ensures ok ==> At(v, n + 1, w.ready && applied)
      ensures !ok ==> Delivered(c, w, n, st) && Extends(w.t0, trace)
      ensures calm && Settled(c, w.s0) ==> ok && (Has(w.s0.nodes, c.keys[n], Kill()) ==> applied)
    {
      ghost var s, t := st, trace;
      InStepMayWrite(forward, c, st, Started, c.keys[n], Kill());
      ok, applied, v := TakeTurn(machine, KillPlan(), n, w);
      if forward {
        InStepAfter(c, t, s, st, Started, c.keys[n], Kill());
      }
    }

    /** Stops RKE2 on every machine; an error stops the loop at machine `reached`. */
    method StopRKE2OnAllMachines(scope: MachineScope, rs: RestoreCopy) returns (res: Outcome, ghost reached: nat)
      requires Valid() && st.paused && InScope(scope)
      requires rs.obj.status.phase == Started && (forward ==> InStep(c, st, Started))
      modifies this, rs
      ensures Valid() && st.paused && Extends(old(trace), trace) && old(versions) <= versions
      ensures calm ==> st.version == old(st.version)
      ensures rs.version == old(rs.version) && !res.Panic? && (forward ==> InStep(c, st, Started))
      ensures rs.obj == WithPhase(old(rs.obj), if res.Complete? then Shutdown else Started)
      ensures res.Returned() ==> reached == |c.keys|
      ensures Delivered(c, Kills(old(st), old(trace)), reached, st)
      ensures res.Complete? && forward ==> forall k :: k in c.keys ==> Applied(st, k, Kill())
      ensures res.Requeue? ==> exists k :: k in c.keys && Lagged(old(trace), trace, k, Kill())
      ensures calm && Settled(c, old(st)) ==>
                && res.Returned() && AllHave(c, st.nodes, Kill())
                && (AllHave(c, old(st).nodes, Kill()) ==> res.Complete?)
    {
      ghost var w := Kills(st, trace);
      var allMachinesReady, i := true, 0;
      SweepStart(c, forward, Kill(), None, st, trace, "");
      LookUp();
      ScopeKeys(c, machines, backup, 0);
      while i < |scope.machines|
        invariant 0 <= i <= |scope.machines| && Valid() && st.paused
        invariant At(w, i, allMachinesReady) && SameLoop(Kills(old(st), old(trace)), w)
        invariant forward ==> InStep(c, st, Started)
        invariant calm && Settled(c, old(st)) && AllHave(c, old(st).nodes, Kill()) ==> allMachinesReady
        invariant st.restore.status == old(st.restore.status) && (calm ==> st.version == old(st.version))
        invariant old(versions) <= versions && rs.obj == old(rs.obj) && rs.version == old(rs.version)
      {
        ScopeKeys(c, machines, backup, i);
        var ok, applied;
        ok, applied, w := KillInStep(scope.machines[i], i, w);
        if !ok {
          return Error, i;
        }
        if !applied {
          allMachinesReady := false;
        }
        i := i + 1;
      }
      SweepEnds(c, w);
      if allMachinesReady {
        rs.obj := WithPhase(rs.obj, Shutdown);
        return Complete, i;
      }
      res, reached := Requeue, i;
    }

    /** What the restore and the start handler do with the init machine's secret: fill it,
        and see from the same copy whether the plan is acknowledged. Only the restore
        handler guards against a nil map. */
    method HandPlanToInit(machine: Machine, plan: Plan, guarded: bool) returns (res: Outcome)
      requires Valid() && st.paused && machine.configName in c.keys
      requires MayWrite(forward, c, st, machine.configName, plan)
      modifies this
      ensures Valid() && Proceeds({machine.configName})
      ensures Has(old(st).nodes, machine.configName, plan) ==> Frame(old(st), st, {})
      ensures res.Returned() ==> Has(st.nodes, machine.configName, plan)
      ensures res.Complete? && forward ==> Applied(st, machine.configName, plan)
      ensures res.Requeue? ==> Lagged(old(trace), trace, machine.configName, plan)
      ensures res.Panic? ==> !guarded && old(st).nodes[machine.configName].secret.data.Nil?
      ensures calm && Quiescent(old(st).nodes[machine.configName]) ==>
                && (res.Returned() || res.Panic?)
                && (Has(old(st).nodes, machine.configName, plan) ==> res.Complete?)
    {
      var k := machine.configName;
      ghost var s0, t0 := st, trace;
      var secret: PlanSecret?;
      res, secret := FillSecret(machine, plan, guarded);
      ghost var s1, t1 := st, trace;
      if !res.Complete? {
        return;
      }
      if !IsAcknowledged(plan, secret.Checksum()) {
        LaggedNow(forward, c, t0, t1, s1, k, plan);
        return Requeue;
      }
      var ok := DecompressPlanOutput();
      ExtendsTransitive(t0, t1, trace);
      FrameTransitive(s0, s1, st, {k}, {}, {k});
      if Frame(s0, s1, {}) {
        FrameTransitive(s0, s1, st, {}, {}, {});
      }
      assert NodeFrame(s1.nodes[k], st.nodes[k]);
      if forward {
        MayWriteFinal(c, s0, k, plan);
        FinalStays(c, s0, s1, plan);
        AppliedStays(c, t1, s1, st, {}, k, plan);
      }
      res := if ok then Complete else Error;
    }

    ghost function InitKey(): set<Key> { if c.init.Some? then {c.init.value} else {} }

    /** Restores the snapshot on the init machine. */
    method RestoreSnapshotOnInitMachine(scope: MachineScope, rs: RestoreCopy) returns (res: Outcome)
      requires Valid() && st.paused && InScope(scope)
      requires rs.obj.status.phase == Shutdown && (forward ==> InStep(c, st, Shutdown))
      modifies this, rs
      ensures Valid() && Proceeds(InitKey()) && InitKey() <= AllKeys(c)
      ensures rs.version == old(rs.version) && (forward ==> InStep(c, st, Shutdown))
      ensures rs.obj == WithPhase(old(rs.obj), if res.Complete? then Phase.Restore else Shutdown)
      ensures res.Panic? <==> backup.location != "" && c.init.None?
      ensures res.Returned() ==> c.init.Some? && c.location != "" && InitHas(c, st.nodes, Recover(c))
      ensures res.Returned() ==> InitHas(c, st.nodes, RestorePlan(
                if "file://" <= backup.location then backup.location[7..] else backup.location))
      ensures res.Complete? && forward ==> Earned(c, st, Phase.Restore)
      ensures res.Requeue? ==> Lagged(old(trace), trace, c.init.value, Recover(c))
      ensures calm && Settled(c, old(st)) && ValidInputs(c) ==>
                res.Returned() && (InitHas(c, old(st).nodes, Recover(c)) ==> res.Complete?)
    {
      LookUp();
      ScopeInit(c, machines, backup);
      if scope.backup.location == "" {
        return Error;
      }
      // The search leaves an empty machine behind, never nil: reading its reference panics.
      if scope.initMachine.None? {
        return Panic;
      }
      var plan := RestorePlan(TrimPrefix(scope.backup.location, "file://"));
      RestorePathIs(c, "");
      ghost var s, t := st, trace;
      InStepMayWrite(forward, c, st, Shutdown, c.init.value, Recover(c));
      res := HandPlanToInit(scope.initMachine.value, plan, true);
      if forward {
        InStepAfter(c, t, s, st, Shutdown, c.init.value, Recover(c));
      }
      if res.Complete? {
        rs.obj := WithPhase(rs.obj, Phase.Restore);
      }
    }

    ghost function Joins(s: State, t: Trace): Sweep { Sweep(forward, Join(c), c.init, s, t, s, t, 0, true, "") }

    /** One turn of the loop over the machines that join the init machine. */
    method JoinInStep(machine: Machine, initMachineIP: string, n: nat, ghost w: Sweep)
      returns (ok: bool, applied: bool, ghost v: Sweep)
      requires Valid() && st.paused && n < |c.keys| && machine.configName == c.keys[n]
      requires c.init.Some? && c.init != Some(c.keys[n]) && c.ip == initMachineIP && c.ip != ""
      requires At(w, n, w.ready) && w.plan == Join(c) && w.skip == c.init
      requires forward ==> InStep(c, st, Phase.Restore) && Applied(st, c.init.value, Boot())
      modifies this
      ensures Valid() && st.paused && old(versions) <= versions && (calm ==> st.version == old(st.version))
      ensures st.restore.status == old(st.restore.status) && SameLoop(w, v)
      ensures forward ==> InStep(c, st, Phase.Restore) && Applied(st, c.init.value, Boot())
      ensures ok ==> At(v, n + 1, w.ready && applied)
      ensures !ok ==> Delivered(c, w, n, st) && Extends(w.t0, trace)
      ensures calm && Settled(c, w.s0) ==> ok && (Has(w.s0.nodes, c.keys[n], Join(c)) ==> applied)
    {
      ghost var s, t := st, trace;
      MayWriteJoin(forward, c, st, c.keys[n]);
      ok, applied, v := TakeTurn(machine, JoinPlan(initMachineIP), n, w);
      if forward {
        BootStays(c, t, s, st, c.keys[n]);
        InStepAfter(c, t, s, st, Phase.Restore, c.keys[n], Join(c));
      }
    }

    /** The second half of the start handler: every machine but the init machine is told
        to join it. An error stops the loop at machine `reached`. */
    method StartOtherMachines(scope: MachineScope, init: Machine, initMachineIP: string)
      returns (res: Outcome, ghost reached: nat)
      requires Valid() && st.paused && InScope(scope) && scope.initMachine == Some(init)
      requires c.init.Some? && initMachineIP == c.ip && c.ip != ""
      requires forward ==> InStep(c, st, Phase.Restore) && Applied(st, c.init.value, Boot())
      modifies this
      ensures Valid() && st.paused && Extends(old(trace), trace) && old(versions) <= versions
      ensures calm ==> st.version == old(st.version)
      ensures Delivered(c, Joins(old(st), old(trace)), reached, st)
      ensures !res.Panic? && (forward ==> InStep(c, st, Phase.Restore) && Applied(st, c.init.value, Boot()))
      ensures res.Returned() ==> reached == |c.keys|
      ensures res.Complete? && forward ==> forall k :: k in c.keys && c.init != Some(k) ==> Applied(st, k, Join(c))
      ensures res.Requeue? ==> exists k :: k in c.keys && c.init != Some(k) && Lagged(old(trace), trace, k, Join(c))
      ensures calm && Settled(c, old(st)) ==>
                && res.Returned() && OthersHave(c, st.nodes, Join(c))
                && (OthersHave(c, old(st).nodes, Join(c)) ==> res.Complete?)
    {
      LookUp();
      ScopeKeys(c, machines, backup, 0);
      var allMachinesReady, i := true, 0;
      ghost var w := Joins(st, trace);
      SweepStart(c, forward, Join(c), c.init, st, trace, "");
      while i < |scope.machines|
        invariant 0 <= i <= |scope.machines| && Valid() && st.paused
        invariant At(w, i, allMachinesReady) && SameLoop(Joins(old(st), old(trace)), w)
        invariant forward ==> InStep(c, st, Phase.Restore) && Applied(st, c.init.value, Boot())
        invariant calm && Settled(c, old(st)) && OthersHave(c, old(st).nodes, Join(c)) ==> allMachinesReady
        invariant st.restore.status == old(st.restore.status) && (calm ==> st.version == old(st.version))
        invariant old(versions) <= versions
      {
        ScopeKeys(c, machines, backup, i);
        NamedLikeInit(c, machines, backup, init, i);
        if scope.machines[i].name == init.name {
          w := SweepSkips(c, w);
        } else {
          var ok, applied;
          ok, applied, w := JoinInStep(scope.machines[i], initMachineIP, i, w);
          if !ok {
            return Error, i;
          }
          if !applied {
            allMachinesReady := false;
          }
        }
        i := i + 1;
      }
      SweepEnds(c, w);
      reached := i;
      res := if allMachinesReady then Complete else Requeue;
    }

    /** The first half of the start handler. */
    method StartInitMachine(init: Machine) returns (res: Outcome)
      requires Valid() && st.paused && c.init == Some(init.configName) && c.ip != ""
      requires forward ==> InStep(c, st, Phase.Restore)
      modifies this
      ensures Valid() && Proceeds({c.init.value}) && (forward ==> !res.Panic? && InStep(c, st, Phase.Restore))
      ensures res.Complete? && forward ==> Applied(st, c.init.value, Boot())
      ensures forward && !res.Complete? && calm && Settled(c, old(st)) ==> res.Requeue? && InitHas(c, st.nodes, Boot())
      ensures calm && Settled(c, old(st)) && InitHas(c, old(st).nodes, Boot()) ==> res.Complete?
      ensures calm && Settled(c, old(st)) && res.Complete? ==>
                Settled(c, st) && (OthersHave(c, old(st).nodes, Join(c)) ==> OthersHave(c, st.nodes, Join(c)))
    {
      InStepMayWrite(forward, c, st, Phase.Restore, c.init.value, Boot());
      if forward {
        InitSecretExists(c, trace, st);
      }
      ghost var s0, t0 := st, trace;
      res := HandPlanToInit(init, StartPlan(), false);
      if forward {
        InStepAfter(c, t0, s0, st, Phase.Restore, c.init.value, Boot());
      }
      if res.Complete? && calm && Settled(c, s0) {
        SettledBesides(c, trace, s0, st, c.init.value);
      }
    }

    /** Starts RKE2 on the init machine and, once that is acknowledged, on all others;
        until then no other machine is touched. */
    method StartRKE2OnAllMachines(scope: MachineScope, rs: RestoreCopy) returns (res: Outcome)
      requires Valid() && st.paused && InScope(scope)
      requires rs.obj.status.phase == Phase.Restore && (forward ==> InStep(c, st, Phase.Restore))
      modifies this, rs
      ensures Valid() && Proceeds(AllKeys(c)) && (forward ==> !res.Panic? && InStep(c, st, Phase.Restore))
      ensures rs.version == old(rs.version)
      ensures rs.obj == WithPhase(old(rs.obj), if res.Complete? then Finished else Phase.Restore)
      ensures res.Complete? && forward ==> Earned(c, st, Finished)
      ensures calm && Settled(c, old(st)) && ValidInputs(c) ==>
                && res.Returned() && InitHas(c, st.nodes, Boot())
                && (InitHas(c, old(st).nodes, Boot()) ==> OthersHave(c, st.nodes, Join(c)))
                && (InitHas(c, old(st).nodes, Boot()) && OthersHave(c, old(st).nodes, Join(c)) ==> res.Complete?)
    {
      LookUp();
      ScopeInit(c, machines, backup);
      ghost var s0, t0, all := st, trace, AllKeys(c);
      FrameTransitive(s0, s0, s0, {}, {}, all);
      var initMachineIP := GetInternalMachineIP(scope.initMachine);
      if initMachineIP == "" {
        return Error;
      }
      res := StartInitMachine(scope.initMachine.value);
      ghost var s1, t1 := st, trace;
      FrameTransitive(s0, s1, s1, {c.init.value}, {}, all);
      if res.Complete? {
        ghost var reached;
        res, reached := StartOtherMachines(scope, scope.initMachine.value, initMachineIP);
        ExtendsTransitive(t0, t1, trace);
        DeliveredAll(c, Joins(s1, t1), reached, st);
        FrameTransitive(s0, s1, st, {c.init.value}, all, all);
        if res.Complete? {
          rs.obj := WithPhase(rs.obj, Finished);
        }
      }
    }

    method AllMachinesRunning(phases: seq<string>) returns (running: bool)
      ensures running == AllRunning(phases)
    {
      var i := 0;
      while i < |phases|
        invariant 0 <= i <= |phases| && AllRunning(phases[..i])
      {
        if phases[i] != "Running" {
          return false;
        }
        i := i + 1;
      }
      running := true;
    }

    /** The finished phase. */
    method UnpauseCluster(cluster: ClusterCopy) returns (res: Outcome)
      requires Valid() && st.paused && st.restore.status.phase == Finished
      modifies this, cluster
      ensures Valid() && Extends(old(trace), trace) && old(versions) <= versions
      ensures Frame(old(st), st, AllKeys(c)) && (calm ==> st.version == old(st.version))
      ensures res.Error? || (res.Complete? && !st.paused)
      ensures calm && old(cluster.version) == old(st.clusterVersion) ==> res.Complete?
    {
      ghost var s0 := st;
      cluster.paused := false;
      var ok := PatchCluster(cluster);
      FrameTransitive(s0, st, st, {}, {}, AllKeys(c));
      res := if ok then Complete else Error;
    }

    /** What a pass that found this phase in memory makes of it, however it ends: only a
        handler that completes moves on. A finished restore that completes is unpaused. */
    twostate predicate Handled(rs: RestoreCopy, res: Outcome)
      reads this, rs
    {
      var found := Opened(old(rs.obj).status.phase);
      && Extends(old(trace), trace) && old(versions) <= versions
      && Frame(old(st), st, AllKeys(c)) && (calm ==> st.version == old(st.version))
      && rs.version == old(rs.version)
      && rs.obj == WithPhase(old(rs.obj), if res.Complete? then NextPhase(found) else found)
      && MayPersist(forward, c, st, old(rs.obj).status.phase, rs.obj.status.phase)
      && (old(st).paused && !st.paused ==> found == Finished)
      && (found == Finished && res.Complete? ==> !st.paused)
      && (forward ==> InStep(c, st, found))
      && (forward && res.Panic? ==> c.init.None? && found == Shutdown)
    }

    /** The convergence claim is for a calm pass over idle agents with usable inputs. */
    ghost predicate Ready(rs: RestoreCopy)
      reads this, rs
    {
      && calm && Settled(c, st) && ValidInputs(c)
      && Named(rs.obj)
    }

    twostate predicate Converges(rs: RestoreCopy, res: Outcome)
      reads this, rs
    {
      old(Ready(rs)) && Reached(old(rs.obj).status.phase) ==>
        && res.Returned()
        && (if old(rs.obj).status.phase == Finished then res.Complete?
            else Advances(c, old(st).nodes, old(rs.obj).status.phase, st.nodes, rs.obj.status.phase))
    }

    /** The copy of the restore object is in a phase the stored one agrees with. */
    ghost predicate Fits(rs: RestoreCopy)
      reads this, rs
    {
      && rs.obj.status.phase != NoPhase
      && (rs.obj.status.phase == Finished ==> st.restore.status.phase == Finished)
      && (forward ==> InStep(c, st, rs.obj.status.phase))
    }

    method HandleStarted(scope: MachineScope, rs: RestoreCopy) returns (res: Outcome)
      requires Valid() && st.paused && InScope(scope) && Fits(rs) && rs.obj.status.phase == Started
      modifies this, rs
      ensures Valid() && Handled(rs, res) && Converges(rs, res)
    {
      ghost var reached;
      ghost var s0, t0 := st, trace;
      res, reached := StopRKE2OnAllMachines(scope, rs);
      DeliveredAll(c, Kills(s0, t0), reached, st);
    }

    method HandleShutdown(scope: MachineScope, rs: RestoreCopy) returns (res: Outcome)
      requires Valid() && st.paused && InScope(scope) && Fits(rs) && rs.obj.status.phase == Shutdown
      modifies this, rs
      ensures Valid() && Handled(rs, res) && Converges(rs, res)
    {
      ghost var s0 := st;
      res := RestoreSnapshotOnInitMachine(scope, rs);
      FrameTransitive(s0, st, st, InitKey(), {}, AllKeys(c));
    }

    method HandleRestore(scope: MachineScope, rs: RestoreCopy) returns (res: Outcome)
      requires Valid() && st.paused && InScope(scope) && Fits(rs) && rs.obj.status.phase == Phase.Restore
      modifies this, rs
      ensures Valid() && Handled(rs, res) && Converges(rs, res)
    {
      res := StartRKE2OnAllMachines(scope, rs);
    }

    /** The switch over the phase, with the cluster paused. */
    method HandlePhase(scope: MachineScope, rs: RestoreCopy) returns (res: Outcome)
      requires Valid() && st.paused && InScope(scope) && Fits(rs) && ClusterFits(scope.cluster)
      modifies this, rs, scope.cluster
      ensures Valid() && Handled(rs, res) && Converges(rs, res)
      ensures calm && old(rs.obj).status.phase == Finished ==> res.Complete?
    {
      match rs.obj.status.phase {
        case Started =>
          res := HandleStarted(scope, rs);
        case Shutdown =>
          res := HandleShutdown(scope, rs);
        case Restore =>
          res := HandleRestore(scope, rs);
        case Finished =>
          res := UnpauseCluster(scope.cluster);
        case _ =>
          FrameTransitive(st, st, st, {}, {}, AllKeys(c));
          res := Complete;
      }
    }

    /** Pauses the cluster, which every pass does first, and handles the phase. */
    method PauseAndHandle(scope: MachineScope, rs: RestoreCopy) returns (res: Outcome)
      requires Valid() && InScope(scope) && Fits(rs) && ClusterFits(scope.cluster)
      modifies this, rs, scope.cluster
      ensures Valid() && Handled(rs, res) && Converges(rs, res)
      ensures calm && old(rs.obj).status.phase == Finished ==> res.Complete?
    {
      scope.cluster.paused := true;
      ghost var s0, t0 := st, trace;
      var ok := PatchCluster(scope.cluster);
      ghost var s1, t1 := st, trace;
      OthersKeepStage(c, s0, s1, rs.obj.status.phase);
      if forward {
        InStepStays(c, t0, s0, s1, rs.obj.status.phase);
      }
      if !ok {
        return Error;
      }
      res := HandlePhase(scope, rs);
      ExtendsTransitive(t0, t1, trace);
      FrameTransitive(s0, s1, st, {}, AllKeys(c), AllKeys(c));
    }

    method ReconcileNormal(rs: RestoreCopy) returns (res: Outcome)
      requires Valid() && rs.obj.spec == st.restore.spec
      requires Rank(rs.obj.status.phase) <= Rank(st.restore.status.phase)
      requires forward ==> InStep(c, st, rs.obj.status.phase)
      modifies this, rs
      ensures Valid() && Handled(rs, res) && Converges(rs, res)
      ensures !old(Named(rs.obj)) ==> res.Error? && Untouched(old(st), st)
    {
      OpenedInStep(c, st);
      if rs.obj.status.phase == NoPhase {
        rs.obj := WithPhase(rs.obj, Started);
        res := ReconcileScope(rs);
        StartedMayPersist(forward, c, st, NoPhase, rs.obj.status.phase);
      } else {
        LegalPhase(forward, c, trace, st);
        res := ReconcileScope(rs);
      }
    }

    /** Every machine has to be running before the cluster is paused or anything written. */
    method WaitForMachines(scope: MachineScope, rs: RestoreCopy) returns (res: Outcome)
      requires Valid() && InScope(scope) && Fits(rs) && ClusterFits(scope.cluster)
      modifies this, rs, scope.cluster
      ensures Valid() && Handled(rs, res) && Converges(rs, res)
      ensures !AllRunning(scope.phases) ==> res.Requeue? && st == old(st)
    {
      var running := AllMachinesRunning(scope.phases);
      if !running {
        FrameTransitive(st, st, st, {}, {}, AllKeys(c));
        return Requeue;
      }
      res := PauseAndHandle(scope, rs);
    }

    /** The pass once the phase is set. */
    method ReconcileScope(rs: RestoreCopy) returns (res: Outcome)
      requires Valid() && rs.obj.spec == st.restore.spec && Fits(rs)
      modifies this, rs
      ensures Valid() && Handled(rs, res) && Converges(rs, res)
      ensures !old(Named(rs.obj)) ==> res.Error? && Untouched(old(st), st)
    {
      ghost var s0, t0 := st, trace;
      var scope := NewScope(rs);
      ghost var s1, t1 := st, trace;
      OthersKeepStage(c, s0, s1, rs.obj.status.phase);
      if forward {
        InStepStays(c, t0, s0, s1, rs.obj.status.phase);
      }
      if scope.None? {
        return Error;
      }
      res := WaitForMachines(scope.value, rs);
      ExtendsTransitive(t0, t1, trace);
      FrameTransitive(s0, s1, st, {}, AllKeys(c), AllKeys(c));
    }

    // ---- The two patches ----------------------------------------------------------------------

    /** The copy was read as stored version `version`, and only its status was changed. */
    ghost predicate CopyOf(rs: RestoreCopy, base: RestoreObject)
      reads this, rs
    {
      && rs.version < |versions| && base == versions[rs.version]
      && rs.obj == base.(status := rs.obj.status) && rs.obj.status.conditions == base.status.conditions
    }

    /** Patch of the main resource, refused unless `base` is the stored version. A change
        of the status alone is none for this endpoint; the answer overwrites the copy. */
    method PatchRestore(rs: RestoreCopy, base: RestoreObject) returns (ok: bool)
      requires Valid() && CopyOf(rs, base)
      modifies this, rs
      ensures Valid() && OnlyOthers()
      ensures rs.version == old(rs.version) && rs.obj == if ok then base else old(rs.obj)
      ensures calm && rs.version == old(st.version) ==> ok
    {
      var fails := CallFails();
      if fails || rs.version != st.version {
        return false;
      }
      LookUp();
      var stored := StoreMain(st.restore, base, rs.obj);
      assert stored == st.restore;
      rs.obj := stored;
      ok := true;
    }

    /** Patch of the status subresource, refused unless `base` is the stored version. One
        that fails has had no effect or its whole effect. */
    method PatchRestoreStatus(rs: RestoreCopy, base: RestoreObject) returns (ok: bool)
      requires Valid() && CopyOf(rs, base)
      requires MayPersist(forward, c, st, base.status.phase, rs.obj.status.phase)
      requires forward ==> InStep(c, st, base.status.phase)
      modifies this, rs
      ensures Valid() && Extends(old(trace), trace) && st.paused == old(st.paused)
      ensures forward ==> InStep(c, st, base.status.phase)
      ensures st.restore.spec == old(st.restore.spec)
      ensures ok ==> st.restore == base.(status := old(rs.obj).status) && rs.obj == st.restore
      ensures !ok ==> st.restore.status == old(st.restore.status) || st.restore.status == old(rs.obj).status
      ensures rs.version == old(rs.version) && old(versions) <= versions
      ensures rs.version < old(st.version) ==> !ok && st.restore.status == old(st.restore.status)
      ensures forall p :: Stage(c, st.nodes, p) == Stage(c, old(st).nodes, p)
      ensures calm && old(rs.version) == old(st.version) ==> ok
    {
      ghost var s0, t0 := st, trace;
      var fails := CallFails();
      ghost var t1 := trace;
      forall p ensures Stage(c, st.nodes, p) == Stage(c, s0.nodes, p) {
        StageStays(c, s0, st, p);
      }
      if forward {
        InStepStays(c, t0, s0, st, base.status.phase);
      }
      if fails || rs.version != st.version {
        return false;
      }
      LookUp();
      MayPersistStays(forward, c, t0, s0, st, base.status.phase, rs.obj.status.phase);
      var stored := StoreStatus(st.restore, base, rs.obj);
      if stored != st.restore {
        MayPersistEnabled(forward, c, st, stored.status);
        ghost var s1 := st;
        Commit(Persist(stored.status));
        ExtendsTransitive(t0, t1, trace);
        if forward {
          PersistIsInTurn(c, s1, stored.status);
        }
        var lost := ReplyIsLost();
        if lost {
          return false;
        }
      }
      rs.obj := stored;
      ok := true;
    }

    /** Both patches against the same base: the first answer overwrites the computed status
        in memory, which is put back before the second. Without an error the stored object
        is the one read, with the computed status and nothing else changed. */
    method PatchBoth(rs: RestoreCopy, base: RestoreObject) returns (ok: bool)
      requires Valid() && CopyOf(rs, base)
      requires MayPersist(forward, c, st, base.status.phase, rs.obj.status.phase)
      requires forward ==> InStep(c, st, base.status.phase)
      modifies this, rs
      ensures Valid() && Extends(old(trace), trace) && st.paused == old(st.paused)
      ensures forward ==> InStep(c, st, base.status.phase)
      ensures st.restore.spec == old(st.restore.spec) && old(versions) <= versions
      ensures ok ==> st.restore == base.(status := old(rs.obj).status)
      ensures st.restore.status == old(st.restore.status) || st.restore.status == old(rs.obj).status
      ensures old(rs.version) < old(st.version) ==> !ok && st.restore.status == old(st.restore.status)
      ensures forall p :: Stage(c, st.nodes, p) == Stage(c, old(st).nodes, p)
      ensures calm && old(rs.version) == old(st.version) ==> ok
    {
      ghost var s0, t0 := st, trace;
      var status := rs.obj.status;
      var patched := PatchRestore(rs, base);
      ghost var s1, t1 := st, trace;
      MayPersistStays(forward, c, t0, s0, s1, base.status.phase, status.phase);
      if forward {
        InStepStays(c, t0, s0, s1, base.status.phase);
      }
      forall p ensures Stage(c, s1.nodes, p) == Stage(c, s0.nodes, p) {
        StageStays(c, s0, s1, p);
      }
      rs.obj := rs.obj.(status := status);
      var statusPatched := PatchRestoreStatus(rs, base);
      ExtendsTransitive(t0, t1, trace);
      ok := patched && statusPatched;
    }

    // ---- A whole pass -------------------------------------------------------------------------

    /** What a pass that read this object computed: a pass that returns has moved on if it
        completed and kept the phase if it has to wait, and one that found the restore
        finished and completed has unpaused the cluster. */
    ghost predicate Computed(read: RestoreObject, res: Outcome, computed: RestoreStatus)
      reads this
    {
      var found := Opened(read.status.phase);
      && (computed == read.status.(phase := found) || computed == read.status.(phase := NextPhase(found)))
      && (res.Returned() ==> computed == read.status.(phase := if res.Complete? then NextPhase(found) else found))
      && (found == Finished && res.Complete? ==> !st.paused)
    }

    /** What the pass over an object that is not being deleted does. `computed` is the
        status it computed, if it got that far. */
    method ReconcileAndPatch(rs: RestoreCopy) returns (res: Outcome, ghost computed: Option<RestoreStatus>)
      requires Valid() && rs.version < |versions| && rs.obj == versions[rs.version] && !rs.obj.deleting
      requires (forward ==> InStep(c, st, rs.obj.status.phase)) && (calm ==> rs.version == st.version)
      modifies this, rs
      ensures Valid() && Extends(old(trace), trace) && old(versions) <= versions
      ensures forward ==> InStep(c, st, old(rs.obj).status.phase)
      ensures st.restore.spec == old(st.restore.spec)
      ensures computed.Some? ==> Computed(old(rs.obj), res, computed.value)
      ensures res.Returned() ==> computed == Some(st.restore.status)
      ensures computed.None? <==> res.Panic?
      ensures st.restore.status == old(st.restore.status) || computed == Some(st.restore.status)
      ensures old(rs.version) < old(st.version) ==> st.restore.status == old(st.restore.status)
      ensures old(st).paused && !st.paused ==> old(rs.obj).status.phase == Finished
      ensures forward && res.Panic? ==> c.init.None? && old(rs.obj).status.phase == Shutdown
      ensures old(Ready(rs)) ==> res.Returned() && st.restore.deleting == old(rs.obj).deleting
      ensures old(Ready(rs)) ==>
                if old(rs.obj).status.phase == Finished
                then st.restore.status.phase == Finished && !st.paused
                else Advances(c, old(st).nodes, old(rs.obj).status.phase, st.nodes, st.restore.status.phase)
    {
      ghost var t0 := trace;
      LookUp();
      var base := rs.obj;
      LegalPhase(forward, c, trace, st);
      res := ReconcileNormal(rs);
      ghost var t1 := trace;
      if res.Panic? {
        return res, None;
      }
      computed := Some(rs.obj.status);
      var ok := PatchBoth(rs, base);
      ExtendsTransitive(t0, t1, trace);
      if !ok {
        res := Error;
      }
    }

    /** `seen` is the version the cache held and `got` whether the pass got a copy of it. One
        of an object that is being deleted ends the pass with nothing done. */
    method Reconcile(cache: Cache)
      returns (res: Outcome, ghost got: bool, ghost seen: nat, ghost computed: Option<RestoreStatus>)
      requires Valid() && InOrder(cache)
      modifies this, cache
      ensures Valid() && Extends(old(trace), trace) && old(versions) <= versions && seen < |versions|
      ensures InOrder(cache) && seen == cache.version && (forward ==> old(cache.version) <= seen)
      ensures calm ==> got
      ensures !got ==> res.Error?
      ensures got && versions[seen].deleting ==> res.Complete?
      ensures !got || versions[seen].deleting ==> computed.None? && Untouched(old(st), st)
      ensures got && !versions[seen].deleting ==> (computed.None? <==> res.Panic?)
      ensures st.restore.spec == old(st.restore.spec)
      ensures calm && computed.Some? ==> versions[seen].status == old(st.restore.status)
      ensures computed.Some? ==> Computed(versions[seen], res, computed.value)
      ensures res.Returned() ==> computed == Some(st.restore.status) || versions[seen].deleting
      ensures st.restore.status == old(st.restore.status) || computed == Some(st.restore.status)
      ensures seen < old(st.version) ==> st.restore.status == old(st.restore.status)
      ensures old(st).paused && !st.paused ==> old(st).restore.status.phase == Finished
      ensures forward && res.Panic? ==> c.init.None? && versions[seen].status.phase == Shutdown
      ensures calm && Settled(c, old(st)) && Usable(old(st)) ==>
                && res.Returned() && !st.restore.deleting
                && (if old(st).restore.status.phase == Finished
                    then st.restore.status.phase == Finished && !st.paused
                    else Advances(c, old(st).nodes, old(st).restore.status.phase, st.nodes, st.restore.status.phase))
    {
      ghost var s0, t0 := st, trace;
      computed := None;
      var rs := GetRestore(cache);
      ghost var s1, t1 := st, trace;
      LookUp();
      got, seen := rs != null, cache.version;
      if rs == null {
        res := Error;
        return;
      }
      if rs.obj.deleting {
        res := Complete;
        return;
      }
      LegalPhase(forward, c, t1, s1);
      if calm && Settled(c, s0) {
        SettledStays(c, s0, s1);
        StageStays(c, s0, s1, rs.obj.status.phase);
      }
      res, computed := ReconcileAndPatch(rs);
      ExtendsTransitive(t0, t1, trace);
    }

    /** Inputs that let a restore finish, and nobody deleting it. */
    ghost predicate Usable(s: State) {
      ValidInputs(c) && Named(s.restore) && !s.restore.deleting
    }

    // ---- Rounds -------------------------------------------------------------------------------

    /** The next step of an agent that makes progress. */
    method Proceed(k: Key)
      requires Valid() && forward && k in st.nodes && Tracked(st.nodes[k]) && !Quiescent(st.nodes[k])
      modifies this
      ensures Valid() && Extends(old(trace), trace) && Untouched(old(st), st)
      ensures forall j :: j in st.nodes && j != k ==> st.nodes[j] == old(st).nodes[j]
      ensures k in st.nodes && Tracked(st.nodes[k]) && 0 <= Left(st.nodes[k]) < Left(old(st).nodes[k])
      ensures st.version == old(st.version) && st.clusterVersion == old(st.clusterVersion)
      ensures old(versions) <= versions
    {
      var n := st.nodes[k];
      var act := if n.work.None? then Pickup
                 else if n.work.value.pc < |n.work.value.plan| then Execute
                 else Report;
      LessLeft(n, act);
      OutsideIsUntouched(forward, c, st, Agent(k, act));
      Commit(Agent(k, act));
    }

    /** A fair stretch of time: one agent gets to finish all it has to do. */
    method FinishAgent(k: Key)
      requires Valid() && forward && k in c.keys
      modifies this
      ensures Valid() && Extends(old(trace), trace) && Untouched(old(st), st)
      ensures Quiescent(st.nodes[k])
      ensures forall j :: j in st.nodes && j != k ==> st.nodes[j] == old(st).nodes[j]
      ensures st.version == old(st.version) && st.clusterVersion == old(st.clusterVersion)
      ensures old(versions) <= versions
    {
      ghost var s0, t0 := st, trace;
      LegalTracked(c, trace, st, k);
      while !Quiescent(st.nodes[k])
        invariant Valid() && Extends(t0, trace) && Untouched(s0, st) && Tracked(st.nodes[k])
        invariant forall j :: j in st.nodes && j != k ==> st.nodes[j] == s0.nodes[j]
        invariant st.version == s0.version && st.clusterVersion == s0.clusterVersion
        invariant old(versions) <= versions
        decreases Left(st.nodes[k])
      {
        ghost var s, t := st, trace;
        Proceed(k);
        ExtendsTransitive(t0, t, trace);
        UntouchedTransitive(s0, s, st);
      }
    }

    /** Every agent gets to finish. */
    method Settle()
      requires Valid() && forward
      modifies this
      ensures Valid() && Extends(old(trace), trace) && Untouched(old(st), st) && Settled(c, st)
      ensures st.version == old(st.version) && old(versions) <= versions
    {
      ghost var s0, t0 := st, trace;
      var i := 0;
      while i < |c.keys|
        invariant 0 <= i <= |c.keys| && Valid() && Extends(t0, trace) && Untouched(s0, st)
        invariant st.version == s0.version && old(versions) <= versions
        invariant forall j :: 0 <= j < i ==> Quiescent(st.nodes[c.keys[j]])
      {
        ghost var s, t := st, trace;
        FinishAgent(c.keys[i]);
        ExtendsTransitive(t0, t, trace);
        UntouchedTransitive(s0, s, st);
        i := i + 1;
      }
    }

    /** Rounds of agents that finish and passes that do not fail, with agents free to act
        during the passes too: the restore is finished after at most 7 rounds. */
    method RunUntilFinished(cache: Cache) returns (rounds: nat)
      requires Valid() && calm && Usable(st) && InOrder(cache)
      modifies this, cache
      ensures Valid() && InOrder(cache) && Extends(old(trace), trace) && Usable(st)
      ensures st.restore.status.phase == Finished
      ensures rounds <= 7 && rounds <= Stage(c, old(st).nodes, old(st).restore.status.phase)
    {
      ghost var s0, t0 := st, trace;
      rounds := 0;
      LegalPhase(forward, c, trace, st);
      while st.restore.status.phase != Finished
        invariant Valid() && InOrder(cache) && Extends(t0, trace) && Usable(st) && Reached(st.restore.status.phase)
        invariant rounds + Stage(c, st.nodes, st.restore.status.phase) <= Stage(c, s0.nodes, s0.restore.status.phase)
        decreases Stage(c, st.nodes, st.restore.status.phase)
      {
        Round(cache, t0);
        assert Ask(0);
        rounds := rounds + 1;
      }
    }

    /** One more round unpauses the cluster. */
    method RunToTheEnd(cache: Cache) returns (rounds: nat)
      requires Valid() && calm && Usable(st) && InOrder(cache)
      modifies this, cache
      ensures Valid() && Extends(old(trace), trace)
      ensures st.restore.status.phase == Finished && !st.paused
      ensures rounds <= 8 && rounds <= Stage(c, old(st).nodes, old(st).restore.status.phase) + 1
    {
      ghost var t0 := trace;
      rounds := RunUntilFinished(cache);
      Round(cache, t0);
      rounds := rounds + 1;
    }

    method Round(cache: Cache, ghost since: Trace)
      requires Valid() && calm && Usable(st) && InOrder(cache) && Extends(since, trace)
      modifies this, cache
      ensures Valid() && InOrder(cache) && Usable(st) && Extends(since, trace) && Reached(st.restore.status.phase)
      ensures if old(st).restore.status.phase == Finished
              then st.restore.status.phase == Finished && !st.paused
              else Advances(c, old(st).nodes, old(st).restore.status.phase, st.nodes, st.restore.status.phase)
    {
      ghost var s0, t0 := st, trace;
      Settle();
      ghost var s1, t1 := st, trace;
      StageStays(c, s0, s1, s0.restore.status.phase);
      InStepStays(c, t0, s0, s1, versions[cache.version].status.phase);
      var res;
      ghost var got, seen, computed;
      res, got, seen, computed := Reconcile(cache);
      ExtendsTransitive(since, t0, t1);
      ExtendsTransitive(since, t1, trace);
      LegalPhase(forward, c, trace, st);
    }

    /** One pass, and whatever others do before the next. */
    method PassAndPause(cache: Cache)
      requires Valid() && InOrder(cache)
      modifies this, cache
      ensures Valid() && InOrder(cache) && Extends(old(trace), trace) && old(versions) <= versions
      ensures forward && old(versions[cache.version].deleting) ==>
                versions[cache.version].deleting && Untouched(old(st), st)
    {
      ghost var s0, t0, known := st, trace, cache.version;
      var res;
      ghost var got, seen, computed;
      res, got, seen, computed := Reconcile(cache);
      ghost var s1, t1 := st, trace;
      LookUp();
      Interfere();
      ExtendsTransitive(t0, t1, trace);
      if forward {
        RisingAt(versions, known, seen);
        InStepStays(c, t1, s1, st, versions[cache.version].status.phase);
        if versions[known].deleting {
          UntouchedTransitive(s0, s1, st);
        }
      }
    }

    /** Any number of passes, each failing or dying wherever it may, with agents and other
        clients acting in between: no plan is written out of turn or twice too often, the
        phase never falls back, and if the restore finishes it finishes well. Once a restore
        was read that is being deleted, nothing is written, paused or unpaused any more. */
    method Operate(cache: Cache, passes: nat)
      requires Valid() && InOrder(cache)
      modifies this, cache
      ensures Valid() && InOrder(cache) && Extends(old(trace), trace)
      ensures Rank(old(st).restore.status.phase) <= Rank(st.restore.status.phase) && PauseInv(st)
      ensures forward ==> Writes(trace) <= 2 * |c.keys| + 1
      ensures forward && old(versions[cache.version].deleting) ==>
                Untouched(old(st), st) && Writes(trace) == Writes(old(trace))
      ensures forward && st.restore.status.phase == Finished ==> forall k :: k in c.keys ==>
                && st.nodes[k].host.running
                && ServerLines(st.nodes[k].host.config) == if c.init == Some(k) then [] else [InitLine(c)]
    {
      ghost var s0, t0 := st, trace;
      ghost var gone := forward && versions[cache.version].deleting;
      LegalIsRun(forward, c, trace, st);
      for i := 0 to passes
        invariant Valid() && InOrder(cache) && Extends(t0, trace)
        invariant gone ==> versions[cache.version].deleting && Untouched(s0, st)
      {
        ghost var s, t := st, trace;
        PassAndPause(cache);
        ExtendsTransitive(t0, t, trace);
        if gone {
          UntouchedTransitive(s0, s, st);
        }
      }
      LegalIsRun(forward, c, trace, st);
      PhaseMovesForward(forward, c, t0, trace);
      if gone {
        SameWrites(forward, c, t0, trace);
      }
      if forward {
        BoundedWrites(c, trace);
        if st.restore.status.phase == Finished {
          FinishedLines(c, trace);
        }
      }
    }
  }
}
