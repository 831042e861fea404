/** JSON merge patches as the controllers create and the API server applies them
    (section 2 of RFC 7396), and what they do to a restore object whose status is a
    subresource of its own. */
module MergePatch {
  import opened Objects

  datatype Json = Null | Bool(value: bool) | Str(text: string) | Arr(items: seq<Json>) | Obj(fields: map<string, Json>)

  function Fields(j: Json): map<string, Json> { if j.Obj? then j.fields else map[] }

  /** MergePatch of section 2 of RFC 7396. */
  function Apply(target: Json, patch: Json): Json
    decreases patch
  {
    if !patch.Obj? then patch
    else
      var was := Fields(target);
      Obj(map k | k in was.Keys + patch.fields.Keys && !(k in patch.fields && patch.fields[k].Null?) ::
            if k in patch.fields then Apply(if k in was then was[k] else Null, patch.fields[k]) else was[k])
  }

  /** The patch the client computes between two documents. */
  function Diff(a: map<string, Json>, b: map<string, Json>): map<string, Json>
    decreases Obj(b)
  {
    map k | k in a.Keys + b.Keys && !(k in a && k in b && a[k] == b[k]) ::
      if k !in b then Null
      else if k in a && a[k].Obj? && b[k].Obj? then Obj(Diff(a[k].fields, b[k].fields))
      else b[k]
  }

  /** No member is null: what Go's encoder produces for the objects here. */
  predicate Clean(j: Json) {
    j.Obj? ==> forall k :: k in j.fields ==> !j.fields[k].Null? && Clean(j.fields[k])
  }

  lemma {:induction false} ApplyAnew(target: Json, j: Json)
    requires Clean(j) && !target.Obj?
    ensures Apply(target, j) == j
    decreases j
  {
    if j.Obj? {
      forall k | k in j.fields ensures Apply(Null, j.fields[k]) == j.fields[k] {
        ApplyAnew(Null, j.fields[k]);
      }
    }
  }

  /** Applying the patch between two documents to the first gives the second. */
  lemma {:induction false} ApplyDiff(a: map<string, Json>, b: map<string, Json>)
    requires Clean(Obj(b))
    ensures Apply(Obj(a), Obj(Diff(a, b))) == Obj(b)
    decreases Obj(b)
  {
    var p := Diff(a, b);
    forall k | k in b
      ensures k in p ==> !p[k].Null? && Apply(if k in a then a[k] else Null, p[k]) == b[k]
    {
      if k in a && a[k].Obj? && b[k].Obj? {
        ApplyDiff(a[k].fields, b[k].fields);
      } else if b[k].Obj? {
        ApplyAnew(if k in a then a[k] else Null, b[k]);
      }
    }
    assert Apply(Obj(a), Obj(p)).fields.Keys == b.Keys;
  }

  // ---- The restore object as a document ------------------------------------------------

  function PhaseName(p: Phase): string {
    match p
    case NoPhase => ""
    case Started => "Started"
    case Shutdown => "Shutdown"
    case Restore => "Restore"
    case PostRestorePodCleanup => "PostRestorePodCleanup"
    case InitialRestartCluster => "InitialRestartCluster"
    case PostRestoreNodeCleanup => "PostRestoreNodeCleanup"
    case RestartCluster => "RestartCluster"
    case Finished => "Finished"
    case Failed => "Failed"
  }

  function PhaseNamed(s: string): Phase {
    if s == "Started" then Started
    else if s == "Shutdown" then Shutdown
    else if s == "Restore" then Restore
    else if s == "PostRestorePodCleanup" then PostRestorePodCleanup
    else if s == "InitialRestartCluster" then InitialRestartCluster
    else if s == "PostRestoreNodeCleanup" then PostRestoreNodeCleanup
    else if s == "RestartCluster" then RestartCluster
    else if s == "Finished" then Finished
    else if s == "Failed" then Failed
    else NoPhase
  }

  lemma PhaseNames(p: Phase)
    ensures PhaseNamed(PhaseName(p)) == p
    ensures PhaseName(p) == "" <==> p == NoPhase
  {
  }

  /** A string field with `omitempty`. */
  function Text(name: string, s: string): map<string, Json> {
    if s == "" then map[] else map[name := Str(s)]
  }

  function GetText(m: map<string, Json>, name: string): string {
    if name in m && m[name].Str? then m[name].text else ""
  }

  function Member(m: map<string, Json>, name: string): map<string, Json> {
    if name in m then Fields(m[name]) else map[]
  }

  function Strings(items: seq<string>): seq<Json> {
    seq(|items|, i requires 0 <= i < |items| => Str(items[i]))
  }

  function GetStrings(items: seq<Json>): seq<string> {
    seq(|items|, i requires 0 <= i < |items| => if items[i].Str? then items[i].text else "")
  }

  function MetadataDoc(o: RestoreObject): map<string, Json> {
    map["labels" := Obj(map k | k in o.labels :: Str(o.labels[k]))]
    + (if o.deleting then map["deletionTimestamp" := Str("set")] else map[])
  }

  function SpecDoc(s: RestoreSpec): map<string, Json> {
    Text("clusterName", s.clusterName) + Text("etcdMachineBackupName", s.backupName)
  }

  function StatusDoc(s: RestoreStatus): map<string, Json> {
    Text("phase", PhaseName(s.phase))
    + (if s.conditions == [] then map[] else map["conditions" := Arr(Strings(s.conditions))])
  }

  function Doc(o: RestoreObject): map<string, Json> {
    map["metadata" := Obj(MetadataDoc(o)), "spec" := Obj(SpecDoc(o.spec)), "status" := Obj(StatusDoc(o.status))]
  }

  function StatusFrom(m: map<string, Json>): RestoreStatus {
    RestoreStatus(PhaseNamed(GetText(m, "phase")),
                  if "conditions" in m && m["conditions"].Arr? then GetStrings(m["conditions"].items) else [])
  }

  function ObjectFrom(m: map<string, Json>): RestoreObject {
    var metadata := Member(m, "metadata");
    var labels := Member(metadata, "labels");
    var spec := Member(m, "spec");
    RestoreObject(
      map k | k in labels :: GetText(labels, k),
      "deletionTimestamp" in metadata,
      RestoreSpec(GetText(spec, "clusterName"), GetText(spec, "etcdMachineBackupName")),
      StatusFrom(Member(m, "status")))
  }

  lemma StatusRoundTrip(s: RestoreStatus)
    ensures StatusFrom(StatusDoc(s)) == s && Clean(Obj(StatusDoc(s)))
  {
    PhaseNames(s.phase);
    assert GetStrings(Strings(s.conditions)) == s.conditions;
    assert "phase" != "conditions";
  }

  lemma SpecRoundTrip(s: RestoreSpec)
    ensures GetText(SpecDoc(s), "clusterName") == s.clusterName
    ensures GetText(SpecDoc(s), "etcdMachineBackupName") == s.backupName
    ensures Clean(Obj(SpecDoc(s)))
  {
    assert |"clusterName"| != |"etcdMachineBackupName"|;
  }

  lemma MetadataRoundTrip(o: RestoreObject)
    ensures "labels" in MetadataDoc(o) && MetadataDoc(o)["labels"].Obj?
    ensures var labels := MetadataDoc(o)["labels"].fields; (map k | k in labels :: GetText(labels, k)) == o.labels
    ensures "deletionTimestamp" in MetadataDoc(o) <==> o.deleting
    ensures Clean(Obj(MetadataDoc(o)))
  {
    assert |"labels"| != |"deletionTimestamp"|;
  }

  lemma DocMembers(o: RestoreObject)
    ensures Member(Doc(o), "metadata") == MetadataDoc(o)
    ensures Member(Doc(o), "spec") == SpecDoc(o.spec)
    ensures Member(Doc(o), "status") == StatusDoc(o.status)
  {
    assert |"metadata"| != |"spec"| && |"spec"| != |"status"| && |"metadata"| != |"status"|;
  }

  lemma DocIsClean(o: RestoreObject)
    ensures Clean(Obj(Doc(o)))
  {
    StatusRoundTrip(o.status);
    SpecRoundTrip(o.spec);
    MetadataRoundTrip(o);
  }

  /** A restore object is determined by its document. */
  lemma DocRoundTrip(o: RestoreObject)
    ensures ObjectFrom(Doc(o)) == o
  {
    DocMembers(o);
    StatusRoundTrip(o.status);
    SpecRoundTrip(o.spec);
    MetadataRoundTrip(o);
  }

  // ---- The two patches of a reconcile ---------------------------------------------------

  /** The patch the client sends for an object it changed from `base` to `changed`. */
  function PatchFrom(base: RestoreObject, changed: RestoreObject): Json {
    Obj(Diff(Doc(base), Doc(changed)))
  }

  function Patched(server: RestoreObject, patch: Json): RestoreObject {
    ObjectFrom(Fields(Apply(Obj(Doc(server)), patch)))
  }

  /** The main resource keeps the stored status and the deletion mark. */
  function PatchMain(server: RestoreObject, patch: Json): RestoreObject {
    Patched(server, patch).(status := server.status, deleting := server.deleting)
  }

  /** The status subresource takes nothing but the status. */
  function PatchStatus(server: RestoreObject, patch: Json): RestoreObject {
    server.(status := Patched(server, patch).status)
  }

  /** Patching the object it was computed from writes what the client has, each of the
      two endpoints its own part and nothing else. */
  lemma PatchesWriteTheChange(base: RestoreObject, changed: RestoreObject)
    ensures PatchMain(base, PatchFrom(base, changed)) == changed.(status := base.status, deleting := base.deleting)
    ensures PatchStatus(base, PatchFrom(base, changed)) == base.(status := changed.status)
  {
    DocRoundTrip(changed);
    DocIsClean(changed);
    ApplyDiff(Doc(base), Doc(changed));
  }

  /** What the server stores when a client that read `base` and changed it patches. */
  method StoreMain(server: RestoreObject, base: RestoreObject, changed: RestoreObject) returns (stored: RestoreObject)
    ensures server == base ==> stored == changed.(status := base.status, deleting := base.deleting)
  {
    PatchesWriteTheChange(base, changed);
    stored := PatchMain(server, PatchFrom(base, changed));
  }

  method StoreStatus(server: RestoreObject, base: RestoreObject, changed: RestoreObject) returns (stored: RestoreObject)
    ensures server == base ==> stored == base.(status := changed.status)
  {
    PatchesWriteTheChange(base, changed);
    stored := PatchStatus(server, PatchFrom(base, changed));
  }
}
