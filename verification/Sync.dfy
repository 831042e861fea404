/** The snapshot sync controller: it turns the snapshot files a workload cluster lists
    into backup objects, which it creates once and never changes. */
module Sync {
  import opened Objects
  import opened Framing
  import Protocol

  // ---- Snapshot files -----------------------------------------------------------------------

  /** A value of an unstructured object, as far as the type assertions look. */
  datatype Value = Text(text: string) | Flag(on: bool) | Fields(fields: map<string, Value>) | Other

  type SnapshotFile = map<string, Value>

  datatype Snapshot = Snapshot(location: string, nodeName: string, name: string, ready: bool)

  function FieldsAt(m: map<string, Value>, key: string): Option<map<string, Value>> {
    if key in m && m[key].Fields? then Some(m[key].fields) else None
  }

  function TextAt(m: map<string, Value>, key: string): Option<string> {
    if key in m && m[key].Text? then Some(m[key].text) else None
  }

  /** None when any of the type assertions fails. */
  function Extract(file: SnapshotFile): Option<Snapshot> {
    match FieldsAt(file, "metadata")
    case None => None
    case Some(metadata) =>
      match (TextAt(metadata, "name"), FieldsAt(file, "spec"))
      case (Some(name), Some(spec)) =>
        (match (TextAt(spec, "location"), TextAt(spec, "nodeName"), FieldsAt(file, "status"))
         case (Some(location), Some(nodeName), Some(status)) =>
           if "readyToUse" in status && status["readyToUse"].Flag?
           then Some(Snapshot(location, nodeName, name, status["readyToUse"].on))
           else None
         case _ => None)
      case _ => None
  }

  /** The file has this member in this group, of this very type and value. */
  predicate HasMember(file: SnapshotFile, group: string, key: string, v: Value) {
    group in file && file[group].Fields? && key in file[group].fields && file[group].fields[key] == v
  }

  /** The file describes this snapshot. */
  predicate Describes(file: SnapshotFile, s: Snapshot) {
    && HasMember(file, "metadata", "name", Text(s.name))
    && HasMember(file, "spec", "location", Text(s.location)) && HasMember(file, "spec", "nodeName", Text(s.nodeName))
    && HasMember(file, "status", "readyToUse", Flag(s.ready))
  }

  /** A snapshot is read from exactly the files that describe one. */
  lemma ExtractIs(file: SnapshotFile, s: Snapshot)
    ensures Extract(file) == Some(s) <==> Describes(file, s)
  {
  }

  /** A malformed file. */
  ghost predicate Malformed(file: SnapshotFile) { forall s :: !Describes(file, s) }

  lemma ExtractFails(file: SnapshotFile)
    ensures Extract(file).None? <==> Malformed(file)
  {
    forall s ensures Extract(file) == Some(s) <==> Describes(file, s) {
      ExtractIs(file, s);
    }
    if Extract(file).Some? {
      assert Describes(file, Extract(file).value);
    }
  }

  // ---- Machines -------------------------------------------------------------------------------

  datatype Cluster = Cluster(
    namespace: string, name: string, paused: bool, controlPlaneKind: Option<string>, controlPlaneReady: bool)

  /** A machine without a node is dereferenced all the same. */
  datatype Found = NoMachine | OnMachine(machine: Machine) | NilNode

  function MachineFor(machines: seq<Machine>, cluster: Cluster, nodeName: string): Found {
    if machines == [] then NoMachine
    else if machines[0].namespace == cluster.namespace && machines[0].clusterName == cluster.name then
      if machines[0].nodeRef.None? then NilNode
      else if machines[0].nodeRef.value == nodeName then OnMachine(machines[0])
      else MachineFor(machines[1..], cluster, nodeName)
    else MachineFor(machines[1..], cluster, nodeName)
  }

  lemma {:induction false} MachineForIsRight(machines: seq<Machine>, cluster: Cluster, nodeName: string)
    ensures MachineFor(machines, cluster, nodeName).OnMachine? ==>
              var m := MachineFor(machines, cluster, nodeName).machine;
              && m in machines && m.namespace == cluster.namespace && m.clusterName == cluster.name
              && m.nodeRef == Some(nodeName)
    ensures MachineFor(machines, cluster, nodeName).NoMachine? ==>
              forall m :: m in machines && m.namespace == cluster.namespace && m.clusterName == cluster.name ==>
                m.nodeRef != Some(nodeName)
  {
    if machines != [] {
      MachineForIsRight(machines[1..], cluster, nodeName);
    }
  }

  predicate Belongs(m: Machine, cluster: Cluster) {
    m.namespace == cluster.namespace && m.clusterName == cluster.name
  }

  /** The first machine of the cluster that has no node stands before any on this node. */
  predicate NodelessFirst(machines: seq<Machine>, cluster: Cluster, nodeName: string, i: int) {
    && 0 <= i < |machines| && Belongs(machines[i], cluster) && machines[i].nodeRef.None?
    && forall j :: 0 <= j < i && Belongs(machines[j], cluster) ==>
         machines[j].nodeRef.Some? && machines[j].nodeRef.value != nodeName
  }

  predicate FirstOn(machines: seq<Machine>, cluster: Cluster, nodeName: string, i: int) {
    && 0 <= i < |machines| && Belongs(machines[i], cluster) && machines[i].nodeRef == Some(nodeName)
    && forall j :: 0 <= j < i && Belongs(machines[j], cluster) ==>
         machines[j].nodeRef.Some? && machines[j].nodeRef.value != nodeName
  }

  lemma {:induction false} FirstOnIsFound(machines: seq<Machine>, cluster: Cluster, nodeName: string, i: int)
    requires FirstOn(machines, cluster, nodeName, i)
    ensures MachineFor(machines, cluster, nodeName) == OnMachine(machines[i])
  {
    if i > 0 {
      assert FirstOn(machines[1..], cluster, nodeName, i - 1);
      FirstOnIsFound(machines[1..], cluster, nodeName, i - 1);
    }
  }

  /** The machine found is the first on this node, with no machine without a node before it. */
  lemma {:induction false} FoundIsFirst(machines: seq<Machine>, cluster: Cluster, nodeName: string) returns (i: int)
    requires MachineFor(machines, cluster, nodeName).OnMachine?
    ensures FirstOn(machines, cluster, nodeName, i)
    ensures machines[i] == MachineFor(machines, cluster, nodeName).machine
  {
    i := 0;
    if !FirstOn(machines, cluster, nodeName, 0) {
      i := FoundIsFirst(machines[1..], cluster, nodeName);
      i := i + 1;
    }
  }

  /** Exactly then the search takes the pass down. */
  lemma {:induction false} NilNodeExactly(machines: seq<Machine>, cluster: Cluster, nodeName: string)
    ensures MachineFor(machines, cluster, nodeName).NilNode?
       <==> exists i :: NodelessFirst(machines, cluster, nodeName, i)
  {
    if machines != [] {
      var rest := machines[1..];
      NilNodeExactly(rest, cluster, nodeName);
      if i :| NodelessFirst(machines, cluster, nodeName, i) {
        assert i == 0 || NodelessFirst(rest, cluster, nodeName, i - 1);
      }
      if MachineFor(machines, cluster, nodeName).NilNode? {
        if Belongs(machines[0], cluster) && machines[0].nodeRef.None? {
          assert NodelessFirst(machines, cluster, nodeName, 0);
        } else {
          var i :| NodelessFirst(rest, cluster, nodeName, i);
          assert NodelessFirst(machines, cluster, nodeName, i + 1);
        }
      }
    }
  }

  // ---- One snapshot file ------------------------------------------------------------------------

  /** A backup object is stored under its namespace and name. */
  type BackupKey = (string, string)

  type Store = map<BackupKey, Backup>

  /** A snapshot file with the machines listed when its turn came. */
  datatype Sight = Sight(file: SnapshotFile, machines: seq<Machine>)

  datatype Verdict = Skip | Make(key: BackupKey, backup: Backup) | Stop | Crash

  function Judge(s: Sight, cluster: Cluster): Verdict {
    match Extract(s.file)
    case None => Stop
    case Some(snapshot) =>
      if !snapshot.ready then Skip
      else
        match MachineFor(s.machines, cluster, snapshot.nodeName)
        case NilNode => Crash
        case NoMachine => Skip
        case OnMachine(m) =>
          if m.name == "" then Skip
          else Make((cluster.namespace, snapshot.name), Backup(cluster.name, m.name, snapshot.location, false))
  }

  /** Creating an object that exists changes nothing. */
  function Created(store: Store, key: BackupKey, backup: Backup): Store {
    if key in store then store else store[key := backup]
  }

  function AfterOne(store: Store, s: Sight, cluster: Cluster): Store {
    match Judge(s, cluster)
    case Make(key, backup) => Created(store, key, backup)
    case _ => store
  }

  /** What handling these files one by one leaves in the store. */
  function Absorb(store: Store, seen: seq<Sight>, cluster: Cluster): Store {
    if seen == [] then store
    else AfterOne(Absorb(store, seen[..|seen| - 1], cluster), seen[|seen| - 1], cluster)
  }

  lemma AbsorbNext(store: Store, seen: seq<Sight>, s: Sight, cluster: Cluster)
    ensures Absorb(store, seen + [s], cluster) == AfterOne(Absorb(store, seen, cluster), s, cluster)
  {
    assert (seen + [s])[..|seen|] == seen;
  }

  predicate MovesOn(s: Sight, cluster: Cluster) {
    !Judge(s, cluster).Stop? && !Judge(s, cluster).Crash?
  }

  /** The snapshot in the file is ready and on the node of this machine of the cluster. */
  predicate ReadyOn(s: Sight, cluster: Cluster, snapshot: Snapshot, i: int) {
    && Describes(s.file, snapshot) && snapshot.ready
    && FirstOn(s.machines, cluster, snapshot.nodeName, i) && s.machines[i].name != ""
  }

  predicate IsMadeOf(s: Sight, cluster: Cluster, snapshot: Snapshot, i: int, key: BackupKey, b: Backup) {
    && ReadyOn(s, cluster, snapshot, i)
    && key == (cluster.namespace, snapshot.name)
    && b == Backup(cluster.name, s.machines[i].name, snapshot.location, false)
  }

  /** A backup is made of exactly the ready snapshots whose machine is found, and from no
      other data. */
  lemma {:induction false} MakesExactly(s: Sight, cluster: Cluster, key: BackupKey, b: Backup)
    ensures Judge(s, cluster) == Make(key, b) <==> exists snapshot, i :: IsMadeOf(s, cluster, snapshot, i, key, b)
  {
    if Judge(s, cluster) == Make(key, b) {
      var snapshot := Extract(s.file).value;
      ExtractIs(s.file, snapshot);
      var i := FoundIsFirst(s.machines, cluster, snapshot.nodeName);
      assert IsMadeOf(s, cluster, snapshot, i, key, b);
    }
    if snapshot, i :| IsMadeOf(s, cluster, snapshot, i, key, b) {
      ExtractIs(s.file, snapshot);
      FirstOnIsFound(s.machines, cluster, snapshot.nodeName, i);
    }
  }

  predicate CrashesOn(s: Sight, cluster: Cluster, snapshot: Snapshot, i: int) {
    Describes(s.file, snapshot) && snapshot.ready && NodelessFirst(s.machines, cluster, snapshot.nodeName, i)
  }

  /** A pass ends at exactly the malformed files, and at the ready ones before whose machine
      one without a node is listed. */
  lemma StopsExactly(s: Sight, cluster: Cluster)
    ensures !MovesOn(s, cluster) <==> Malformed(s.file) || exists snapshot, i :: CrashesOn(s, cluster, snapshot, i)
  {
    ExtractFails(s.file);
    if snapshot, i :| CrashesOn(s, cluster, snapshot, i) {
      ExtractIs(s.file, snapshot);
      NilNodeExactly(s.machines, cluster, snapshot.nodeName);
    }
    if Judge(s, cluster).Crash? {
      var snapshot := Extract(s.file).value;
      ExtractIs(s.file, snapshot);
      NilNodeExactly(s.machines, cluster, snapshot.nodeName);
      var i :| NodelessFirst(s.machines, cluster, snapshot.nodeName, i);
      assert CrashesOn(s, cluster, snapshot, i);
    }
  }

  // ---- A pass -----------------------------------------------------------------------------------

  datatype Outcome = Done | Requeue | Error | Panic

  /** Whether a pass over this cluster looks at its snapshot files at all. */
  predicate Wanted(read: Option<Cluster>) {
    && read.Some? && !read.value.paused
    && read.value.controlPlaneKind == Some("RKE2ControlPlane") && read.value.controlPlaneReady
  }

  class BackupStore {
    /** No call fails. */
    const calm: bool
    var backups: Store

    constructor (calm: bool)
      ensures this.calm == calm && backups == map[]
    {
      this.calm := calm;
      backups := map[];
    }

    method CallFails() returns (fails: bool)
      ensures calm ==> !fails
    {
      var trouble: bool := *;
      fails := trouble && !calm;
    }

    method FindMachineForBackup(machines: seq<Machine>, cluster: Cluster, nodeName: string) returns (found: Found)
      ensures found == MachineFor(machines, cluster, nodeName)
    {
      var i := 0;
      while i < |machines|
        invariant 0 <= i <= |machines|
        invariant MachineFor(machines, cluster, nodeName) == MachineFor(machines[i..], cluster, nodeName)
      {
        if machines[i].namespace == cluster.namespace && machines[i].clusterName == cluster.name {
          if machines[i].nodeRef.None? {
            return NilNode;
          }
          if machines[i].nodeRef.value == nodeName {
            return OnMachine(machines[i]);
          }
        }
        i := i + 1;
      }
      found := NoMachine;
    }

    /** One snapshot file; the machines are whatever the API server lists now. `took` says
        whether it was dealt with, which it may have been although the reply to the create
        was lost. */
    method HandleFile(file: SnapshotFile, cluster: Cluster)
      returns (res: Outcome, ghost sight: Sight, ghost took: bool)
      modifies this
      ensures sight.file == file && !res.Requeue? && (res.Done? ==> took)
      ensures took ==> MovesOn(sight, cluster) && backups == AfterOne(old(backups), sight, cluster)
      ensures !took ==> backups == old(backups)
      ensures res.Panic? ==> Judge(sight, cluster).Crash?
      ensures calm && !res.Done? ==> !MovesOn(sight, cluster)
    {
      sight := Sight(file, []);
      var snapshot := Extract(file);
      if snapshot.None? {
        return Error, sight, false;
      }
      if !snapshot.value.ready {
        return Done, sight, true;
      }
      var fails := CallFails();
      if fails {
        return Error, sight, false;
      }
      var machines: seq<Machine> := *;
      sight := Sight(file, machines);
      var found := FindMachineForBackup(machines, cluster, snapshot.value.nodeName);
      if found.NilNode? {
        return Panic, sight, false;
      }
      if found.NoMachine? || found.machine.name == "" {
        return Done, sight, true;
      }
      fails := CallFails();
      if fails {
        return Error, sight, false;
      }
      var key := (cluster.namespace, snapshot.value.name);
      if key !in backups {
        backups := backups[key := Backup(cluster.name, found.machine.name, snapshot.value.location, false)];
      }
      var lost := CallFails();
      return if lost then Error else Done, sight, true;
    }

    /** The loop over the files. Without failing calls it gets as far as the files move on;
        one malformed file keeps all later ones out. `seen` are the files dealt with. */
    method HandleFiles(files: seq<SnapshotFile>, cluster: Cluster) returns (res: Outcome, ghost seen: seq<Sight>)
      modifies this
      ensures |seen| <= |files| && !res.Requeue?
      ensures forall i :: 0 <= i < |seen| ==> seen[i].file == files[i] && MovesOn(seen[i], cluster)
      ensures backups == Absorb(old(backups), seen, cluster)
      ensures res.Done? ==> |seen| == |files|
      ensures calm && !res.Done? ==>
                |seen| < |files| && exists s: Sight :: s.file == files[|seen|] && !MovesOn(s, cluster)
    {
      seen := [];
      for i := 0 to |files|
        invariant |seen| == i
        invariant forall j :: 0 <= j < i ==> seen[j].file == files[j] && MovesOn(seen[j], cluster)
        invariant backups == Absorb(old(backups), seen, cluster)
      {
        ghost var sight, took;
        res, sight, took := HandleFile(files[i], cluster);
        if took {
          AbsorbNext(old(backups), seen, sight, cluster);
          seen := seen + [sight];
        }
        if !res.Done? {
          return;
        }
      }
      res := Done;
    }

    /** One pass; `read` is the cluster as found, None if it is gone. */
    method Reconcile(read: Option<Cluster>, files: seq<SnapshotFile>) returns (res: Outcome, ghost seen: seq<Sight>)
      modifies this
      ensures |seen| <= |files| && forall i :: 0 <= i < |seen| ==> seen[i].file == files[i]
      ensures !Wanted(read) ==> seen == [] && backups == old(backups)
      ensures Wanted(read) ==> backups == Absorb(old(backups), seen, read.value)
      ensures Wanted(read) ==> forall i :: 0 <= i < |seen| ==> MovesOn(seen[i], read.value)
      ensures Wanted(read) && res.Done? ==> |seen| == |files|
      ensures calm && Wanted(read) && !res.Done? ==>
                |seen| < |files| && exists s: Sight :: s.file == files[|seen|] && !MovesOn(s, read.value)
      ensures Wanted(read) ==> forall i :: 0 <= i < |files| && Malformed(files[i]) ==> |seen| <= i
      ensures Wanted(read) ==> !res.Requeue?
    {
      var fails := CallFails();
      if fails {
        return Error, [];
      }
      if read.None? {
        return Requeue, [];
      }
      var cluster := read.value;
      if cluster.paused {
        return Done, [];
      }
      if cluster.controlPlaneKind.None? {
        return Panic, [];
      }
      if cluster.controlPlaneKind.value != "RKE2ControlPlane" || !cluster.controlPlaneReady {
        return Requeue, [];
      }
      fails := CallFails();
      if fails {
        return Error, [];
      }
      res, seen := HandleFiles(files, cluster);
      forall i | 0 <= i < |seen| ensures !Malformed(files[i]) {
        StopsExactly(seen[i], cluster);
      }
    }
  }

  // ---- What passes do to the store ----------------------------------------------------------------

  /** A pass that handled these files, however it ended. */
  datatype Pass = Pass(cluster: Cluster, seen: seq<Sight>)

  function AfterAll(store: Store, passes: seq<Pass>): Store {
    if passes == [] then store
    else
      var last := passes[|passes| - 1];
      Absorb(AfterAll(store, passes[..|passes| - 1]), last.seen, last.cluster)
  }

  /** `later` has all of `store`, unchanged. */
  predicate Keeps(store: Store, later: Store) {
    forall k :: k in store ==> k in later && later[k] == store[k]
  }

  lemma {:induction false} AbsorbKeeps(store: Store, seen: seq<Sight>, cluster: Cluster)
    ensures Keeps(store, Absorb(store, seen, cluster))
    decreases |seen|
  {
    if seen != [] {
      AbsorbKeeps(store, seen[..|seen| - 1], cluster);
    }
  }

  /** A backup that exists is never changed or removed, whatever passes follow. */
  lemma {:induction false} GrowOnly(store: Store, passes: seq<Pass>)
    ensures Keeps(store, AfterAll(store, passes))
    decreases |passes|
  {
    if passes != [] {
      var n := |passes| - 1;
      GrowOnly(store, passes[..n]);
      AbsorbKeeps(AfterAll(store, passes[..n]), passes[n].seen, passes[n].cluster);
    }
  }

  /** This backup is what this file stands for: a ready snapshot on the node of a machine
      of the cluster. */
  predicate Justifies(s: Sight, cluster: Cluster, key: BackupKey, b: Backup) {
    && (exists m :: m in s.machines && m.namespace == cluster.namespace && m.clusterName == cluster.name
          && m.name == b.machineName && m.nodeRef.Some?
          && Describes(s.file, Snapshot(b.location, m.nodeRef.value, key.1, true)))
    && b.clusterName == cluster.name && key.0 == cluster.namespace && !b.manual
  }

  lemma MakeIsJustified(s: Sight, cluster: Cluster, key: BackupKey, b: Backup)
    requires Judge(s, cluster) == Make(key, b)
    ensures Justifies(s, cluster, key, b)
  {
    MachineForIsRight(s.machines, cluster, Extract(s.file).value.nodeName);
    ExtractIs(s.file, Extract(s.file).value);
  }

  lemma {:induction false} AbsorbIsJustified(store: Store, seen: seq<Sight>, cluster: Cluster, key: BackupKey)
    requires key !in store && key in Absorb(store, seen, cluster)
    ensures exists i :: 0 <= i < |seen| && Justifies(seen[i], cluster, key, Absorb(store, seen, cluster)[key])
    decreases |seen|
  {
    if seen != [] {
      var n := |seen| - 1;
      var before := Absorb(store, seen[..n], cluster);
      if key in before {
        AbsorbIsJustified(store, seen[..n], cluster, key);
        var i :| 0 <= i < n && Justifies(seen[..n][i], cluster, key, before[key]);
        assert Justifies(seen[i], cluster, key, before[key]);
      } else {
        MakeIsJustified(seen[n], cluster, key, Absorb(store, seen, cluster)[key]);
      }
    }
  }

  predicate JustifiesAt(p: Pass, i: int, key: BackupKey, b: Backup) {
    0 <= i < |p.seen| && Justifies(p.seen[i], p.cluster, key, b)
  }

  /** Over any passes across any clusters, wherever they were cut short, every backup that
      was not there before comes from a ready snapshot some pass saw. */
  lemma {:induction false} Justified(store: Store, passes: seq<Pass>, key: BackupKey)
    requires key !in store && key in AfterAll(store, passes)
    ensures exists j, i :: 0 <= j < |passes| && JustifiesAt(passes[j], i, key, AfterAll(store, passes)[key])
    decreases |passes|
  {
    if passes != [] {
      var n := |passes| - 1;
      var before := AfterAll(store, passes[..n]);
      if key in before {
        Justified(store, passes[..n], key);
        AbsorbKeeps(before, passes[n].seen, passes[n].cluster);
        var j, i :| 0 <= j < n && JustifiesAt(passes[..n][j], i, key, before[key]);
        assert JustifiesAt(passes[j], i, key, AfterAll(store, passes)[key]);
      } else {
        AbsorbIsJustified(before, passes[n].seen, passes[n].cluster, key);
        var i :| 0 <= i < |passes[n].seen|
          && Justifies(passes[n].seen[i], passes[n].cluster, key, AfterAll(store, passes)[key]);
        assert JustifiesAt(passes[n], i, key, AfterAll(store, passes)[key]);
      }
    }
  }

  /** After a whole pass every ready snapshot whose machine is found has a backup of its
      name, and it describes this very snapshot exactly if none of that name had been
      stored before its turn, or an equal one had. */
  lemma {:induction false} EverySnapshotHasBackup(
    store: Store, seen: seq<Sight>, n: nat, cluster: Cluster, snapshot: Snapshot, i: nat)
    requires n < |seen| && ReadyOn(seen[n], cluster, snapshot, i)
    ensures var key := (cluster.namespace, snapshot.name);
            var b := Backup(cluster.name, seen[n].machines[i].name, snapshot.location, false);
            var earlier := Absorb(store, seen[..n], cluster);
            var all := Absorb(store, seen, cluster);
            key in all && (all[key] == b <==> key !in earlier || earlier[key] == b)
  {
    var b := Backup(cluster.name, seen[n].machines[i].name, snapshot.location, false);
    assert IsMadeOf(seen[n], cluster, snapshot, i, (cluster.namespace, snapshot.name), b);
    MakesExactly(seen[n], cluster, (cluster.namespace, snapshot.name), b);
    MadeIsStored(store, seen, n, cluster);
  }

  lemma {:induction false} MadeIsStored(store: Store, seen: seq<Sight>, i: nat, cluster: Cluster)
    requires i < |seen| && Judge(seen[i], cluster).Make?
    ensures var v := Judge(seen[i], cluster);
            var earlier := Absorb(store, seen[..i], cluster);
            var all := Absorb(store, seen, cluster);
            && v.key in all
            && (all[v.key] == v.backup <==> v.key !in earlier || earlier[v.key] == v.backup)
  {
    var earlier := Absorb(store, seen[..i], cluster);
    assert seen[..i + 1][..i] == seen[..i];
    assert seen == seen[..i + 1] + seen[i + 1..];
    AbsorbSplits(store, seen[..i + 1], seen[i + 1..], cluster);
    AbsorbKeeps(AfterOne(earlier, seen[i], cluster), seen[i + 1..], cluster);
  }

  lemma {:induction false} AbsorbSplits(store: Store, seen: seq<Sight>, more: seq<Sight>, cluster: Cluster)
    ensures Absorb(store, seen + more, cluster) == Absorb(Absorb(store, seen, cluster), more, cluster)
    decreases |more|
  {
    if more == [] {
      assert seen + more == seen;
    } else {
      var n := |more| - 1;
      var all := seen + more;
      AbsorbSplits(store, seen, more[..n], cluster);
      assert |all| - 1 == |seen| + n;
      assert all[..|all| - 1] == seen + more[..n];
      assert all[|all| - 1] == more[n];
    }
  }

  /** Nothing new is found in a store that has a backup of every name. */
  lemma {:induction false} NothingToAbsorb(store: Store, seen: seq<Sight>, cluster: Cluster)
    requires forall s :: s in seen && Judge(s, cluster).Make? ==> Judge(s, cluster).key in store
    ensures Absorb(store, seen, cluster) == store
    decreases |seen|
  {
    if seen != [] {
      NothingToAbsorb(store, seen[..|seen| - 1], cluster);
    }
  }

  /** Repeating a pass changes nothing, whatever passes came in between. */
  lemma RepeatingChangesNothing(store: Store, seen: seq<Sight>, cluster: Cluster, between: seq<Pass>)
    ensures var later := AfterAll(Absorb(store, seen, cluster), between);
            Absorb(later, seen, cluster) == later
  {
    var once := Absorb(store, seen, cluster);
    GrowOnly(once, between);
    forall s | s in seen && Judge(s, cluster).Make?
      ensures Judge(s, cluster).key in once
    {
      var i :| 0 <= i < |seen| && seen[i] == s;
      MadeIsStored(store, seen, i, cluster);
    }
    NothingToAbsorb(AfterAll(once, between), seen, cluster);
  }

  // ---- From a backup to a restore --------------------------------------------------------------

  /** A restore of `cluster` from the backup finds this machine to restore on. */
  predicate Selects(now: seq<Machine>, namespace: string, cluster: string, b: Backup, m: Machine) {
    && FirstNamed(Listed(now, namespace, cluster), b.machineName) == Some(m)
    && ScopeOf(Listed(now, namespace, cluster), b).init == Some(m.configName)
  }

  /** Names are unique in a namespace and machines carry their cluster's label. */
  predicate Orderly(machines: seq<Machine>) {
    && (forall n :: n in machines ==> n.clusterLabel == n.clusterName)
    && (forall n, o :: n in machines && o in machines && n.namespace == o.namespace && n.name == o.name ==> n == o)
  }

  /** A restore from a backup whose machine still exists selects that machine if it
      restores the backup's cluster, and none otherwise. */
  lemma BackupSelectsItsMachine(namespace: string, b: Backup, now: seq<Machine>, m: Machine)
    requires Orderly(now) && m in now
    requires m.namespace == namespace && m.name == b.machineName && m.clusterName == b.clusterName
    ensures Selects(now, namespace, b.clusterName, b, m)
    ensures forall c :: ScopeOf(Listed(now, namespace, c), b).init.Some? <==> c == b.clusterName
  {
  }

  /** Some pass saw this ready snapshot on the node of a machine of this name. */
  predicate SawOn(passes: seq<Pass>, namespace: string, machineName: string, name: string, location: string) {
    exists j, i, m :: 0 <= j < |passes| && 0 <= i < |passes[j].seen|
      && m in passes[j].seen[i].machines && m.namespace == namespace && m.name == machineName && m.nodeRef.Some?
      && Describes(passes[j].seen[i].file, Snapshot(location, m.nodeRef.value, name, true))
  }

  /** Whatever passes filled the store, as long as a backup's machine exists, in whatever
      state it is by now, a restore of its cluster selects it, a restore of any other
      cluster selects none, and its snapshot was seen on that machine. Such a restore has
      the inputs it needs exactly if the snapshot had a location and the machine has an
      internal address: the sync itself asks for neither. */
  lemma StoredBackupSelectsItsMachine(passes: seq<Pass>, key: BackupKey, b: Backup, now: seq<Machine>, m: Machine)
    requires key in AfterAll(map[], passes) && AfterAll(map[], passes)[key] == b && Orderly(now)
    requires m in now && m.namespace == key.0 && m.name == b.machineName && m.clusterName == b.clusterName
    ensures Selects(now, key.0, b.clusterName, b, m)
    ensures forall c :: ScopeOf(Listed(now, key.0, c), b).init.Some? <==> c == b.clusterName
    ensures SawOn(passes, key.0, m.name, key.1, b.location)
    ensures Protocol.ValidInputs(ScopeOf(Listed(now, key.0, b.clusterName), b))
       <==> b.location != "" && InternalIP(m.addresses) != ""
  {
    Justified(map[], passes, key);
    var j, i :| 0 <= j < |passes| && JustifiesAt(passes[j], i, key, b);
    var s := passes[j].seen[i];
    var seen :| seen in s.machines && seen.namespace == key.0 && seen.clusterName == b.clusterName
      && seen.name == b.machineName && seen.nodeRef.Some?
      && Describes(s.file, Snapshot(b.location, seen.nodeRef.value, key.1, true));
    BackupSelectsItsMachine(key.0, b, now, m);
    assert passes[j].seen[i] == s && SawOn(passes, key.0, m.name, key.1, b.location);
  }

  function SnapshotNamed(name: string, node: string): SnapshotFile {
    map["metadata" := Fields(map["name" := Text(name)]),
        "spec" := Fields(map["location" := Text("file"), "nodeName" := Text(node)]),
        "status" := Fields(map["readyToUse" := Flag(true)])]
  }

  lemma SnapshotFields(name: string, node: string)
    ensures Extract(SnapshotNamed(name, node)) == Some(Snapshot("file", node, name, true))
  {
    assert |"metadata"| != |"spec"| && |"spec"| != |"status"| && |"metadata"| != |"status"|;
    assert "location"[0] != "nodeName"[0];
  }

  function RKE2Cluster(name: string): Cluster {
    Cluster("ns", name, false, Some("RKE2ControlPlane"), true)
  }

  lemma OneFile(store: Store, name: string, m: Machine, others: seq<Machine>, s: Sight)
    requires m.namespace == "ns" && m.clusterName == name && m.name != "" && m.nodeRef.Some?
    requires s == Sight(SnapshotNamed("snapshot", m.nodeRef.value), others + [m])
    requires forall o :: o in others ==> o.clusterName != name
    ensures Judge(s, RKE2Cluster(name)) == Make(("ns", "snapshot"), Backup(name, m.name, "file", false))
    ensures Absorb(store, [s], RKE2Cluster(name)) == AfterOne(store, s, RKE2Cluster(name))
    decreases |others|
  {
    SnapshotFields("snapshot", m.nodeRef.value);
    assert [s][..0] == [];
    if others == [] {
      assert s.machines == [m];
    } else {
      assert s.machines[1..] == others[1..] + [m];
      OneFile(store, name, m, others[1..], Sight(s.file, others[1..] + [m]));
    }
  }

  /** Two clusters of one namespace whose snapshots have the same name: the second pass
      handles its file to the end, but the backup of that name stays the first cluster's. */
  lemma NameCollision(one: Machine, other: Machine) returns (first: Pass, second: Pass)
    requires one.namespace == "ns" == other.namespace && one.name != "" && other.name != ""
    requires one.clusterName != other.clusterName && one.nodeRef.Some? && other.nodeRef.Some?
    ensures first.cluster == RKE2Cluster(one.clusterName) && second.cluster == RKE2Cluster(other.clusterName)
    ensures |first.seen| == 1 == |second.seen| && MovesOn(second.seen[0], second.cluster)
    ensures Judge(second.seen[0], second.cluster)
         == Make(("ns", "snapshot"), Backup(other.clusterName, other.name, "file", false))
    ensures AfterAll(map[], [first, second])
         == map[("ns", "snapshot") := Backup(one.clusterName, one.name, "file", false)]
  {
    var s := Sight(SnapshotNamed("snapshot", one.nodeRef.value), [] + [one]);
    var t := Sight(SnapshotNamed("snapshot", other.nodeRef.value), [one] + [other]);
    first, second := Pass(RKE2Cluster(one.clusterName), [s]), Pass(RKE2Cluster(other.clusterName), [t]);
    OneFile(map[], one.clusterName, one, [], s);
    OneFile(AfterAll(map[], [first]), other.clusterName, other, [one], t);
    assert [first, second][..1] == [first] && [first][..0] == [];
    assert AfterAll(map[], [first]) == Absorb(map[], [s], first.cluster);
  }
}
