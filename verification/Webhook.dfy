/** The mutating webhook: what it creates beside an RKE2Config and what it adds to its file
    and command lists. */
module Webhook {
  import opened Objects

  // ---- Names ----------------------------------------------------------------------------------

  function JoinStrings(parts: seq<string>, separator: string): string {
    if parts == [] then ""
    else if |parts| == 1 then parts[0]
    else parts[0] + separator + JoinStrings(parts[1..], separator)
  }

  /** The name the restore controller looks up for a machine bootstrapped from `config`,
      and the one the webhook creates the plan secret under. */
  function PlanSecretName(config: string): string { JoinStrings([config, "rke2config", "plan"], "-") }

  datatype Resource =
    | PlanAccount | PlanSecret | PlanRole | PlanBinding | PlanToken | ConnectInfo | InstallScript

  function ResourceName(config: string, r: Resource): string {
    match r
    case PlanToken => PlanSecretName(config) + "-token"
    case ConnectInfo => config + ("-system-agent-" + "connect-info-config")
    case InstallScript => config + ("-system-agent-" + "install-script")
    case _ => PlanSecretName(config)
  }

  datatype Kind = ServiceAccount | Secret | Role | RoleBinding

  function KindOf(r: Resource): Kind {
    match r
    case PlanAccount => ServiceAccount
    case PlanRole => Role
    case PlanBinding => RoleBinding
    case _ => Secret
  }

  datatype ObjectKey = ObjectKey(kind: Kind, namespace: string, name: string)

  function KeyOf(namespace: string, config: string, r: Resource): ObjectKey {
    ObjectKey(KindOf(r), namespace, ResourceName(config, r))
  }

  function Suffix(r: Resource): string {
    match r
    case PlanToken => Joined("rke2config", "plan") + "-token"
    case ConnectInfo => "-system-agent-" + "connect-info-config"
    case InstallScript => "-system-agent-" + "install-script"
    case _ => Joined("rke2config", "plan")
  }

  function Joined(a: string, b: string): string { "-" + a + "-" + b }

  lemma JoinThree(a: string, b: string, c: string)
    ensures JoinStrings([a, b, c], "-") == a + Joined(b, c)
  {
    assert [a, b, c][1..] == [b, c] && [b, c][1..] == [c];
    assert JoinStrings([b, c], "-") == b + "-" + c;
  }

  lemma NameIs(config: string, r: Resource)
    ensures ResourceName(config, r) == config + Suffix(r)
  {
    JoinThree(config, "rke2config", "plan");
    var plan := Joined("rke2config", "plan");
    assert PlanSecretName(config) == config + plan;
    if r.PlanToken? {
      assert (config + plan) + "-token" == config + (plan + "-token");
    }
  }

  function LastTwo(s: string): string
    requires |s| >= 2
  {
    s[|s| - 2..]
  }

  lemma SuffixEnds(r: Resource)
    ensures |Suffix(r)| >= 2
    ensures LastTwo(Suffix(r)) == match r
                                  case PlanToken => "en"
                                  case ConnectInfo => "ig"
                                  case InstallScript => "pt"
                                  case _ => "an"
  {
  }

  lemma EndsAgree(a: string, x: string, b: string, y: string)
    requires a + x == b + y && |x| >= 2 && |y| >= 2
    ensures LastTwo(x) == LastTwo(y)
    ensures x == y ==> a == b
  {
    var name := a + x;
    assert LastTwo(x) == LastTwo(name) == LastTwo(y);
    assert a == name[..|name| - |x|] && b == name[..|name| - |y|];
  }

  lemma EndTellsResource(r: Resource, q: Resource)
    requires KindOf(r) == KindOf(q) && |Suffix(r)| >= 2 && |Suffix(q)| >= 2
    requires LastTwo(Suffix(r)) == LastTwo(Suffix(q))
    ensures r == q
  {
    SuffixEnds(r);
    SuffixEnds(q);
    var x, y := LastTwo(Suffix(r)), LastTwo(Suffix(q));
    assert x[0] == y[0] && x[1] == y[1];
  }

  /** No two configs and no two resources of a config share a kind and a name. */
  lemma NamesAreInjective(a: string, r: Resource, b: string, q: Resource)
    ensures KindOf(r) == KindOf(q) && ResourceName(a, r) == ResourceName(b, q) <==> a == b && r == q
  {
    NameIs(a, r);
    NameIs(b, q);
    if KindOf(r) == KindOf(q) && ResourceName(a, r) == ResourceName(b, q) {
      SuffixEnds(r);
      SuffixEnds(q);
      EndsAgree(a, Suffix(r), b, Suffix(q));
      EndTellsResource(r, q);
    }
  }

  // ---- Objects ----------------------------------------------------------------------------------

  /** What the Rancher settings and the service account give a request. */
  datatype Settings = Settings(server: string, ca: string, token: string)

  datatype Label = ConfigName | PlanSecretOf | AccountName

  datatype Content =
    | ConnectInfoJson(namespace: string, secretName: string, server: string, ca: string, token: string)
    | InstallScriptFor(server: string)

  datatype Object =
    | AccountObject(labels: map<Label, string>)
    | SecretObject(
        kind: string, labels: map<Label, string>, annotations: map<Label, string>, data: map<string, Content>)
    | RoleObject(verbs: seq<string>, resources: seq<string>, names: seq<string>)
    | BindingObject(account: string, accountNamespace: string, role: string)

  const CONNECT_INFO_KEY := "connect-info" + "-config.json"
  const INSTALL_SCRIPT_KEY := "install.sh"
  const MACHINE_PLAN := "cluster-api.cattle.io" + "/machine-plan"
  const ACCOUNT_TOKEN := "kubernetes.io" + "/service-account-token"

  function ObjectOf(namespace: string, config: string, s: Settings, r: Resource): Object {
    var plan := PlanSecretName(config);
    match r
    case PlanAccount => AccountObject(map[ConfigName := config, PlanSecretOf := plan])
    case PlanSecret => SecretObject(MACHINE_PLAN, map[ConfigName := config], map[], map[])
    case PlanRole => RoleObject(["watch", "get", "update", "list"], ["secrets"], [plan])
    case PlanBinding => BindingObject(plan, namespace, plan)
    case PlanToken => SecretObject(ACCOUNT_TOKEN, map[AccountName := plan], map[AccountName := plan], map[])
    case ConnectInfo =>
      SecretObject("", map[], map[], map[CONNECT_INFO_KEY := ConnectInfoJson(namespace, plan, s.server, s.ca, s.token)])
    case InstallScript => SecretObject("", map[], map[], map[INSTALL_SCRIPT_KEY := InstallScriptFor(s.server)])
  }

  type Store = map<ObjectKey, Object>

  datatype Call = Call(namespace: string, config: string, settings: Settings, resource: Resource)

  function CallKey(c: Call): ObjectKey { KeyOf(c.namespace, c.config, c.resource) }

  /** A create that finds the object there counts as done. */
  function Created(store: Store, c: Call): Store {
    if CallKey(c) in store then store
    else store[CallKey(c) := ObjectOf(c.namespace, c.config, c.settings, c.resource)]
  }

  function CreateAll(store: Store, calls: seq<Call>): Store {
    if calls == [] then store
    else Created(CreateAll(store, calls[..|calls| - 1]), calls[|calls| - 1])
  }

  lemma OneMore(store: Store, calls: seq<Call>, i: nat)
    requires i < |calls|
    ensures CreateAll(store, calls[..i + 1]) == Created(CreateAll(store, calls[..i]), calls[i])
  {
    assert calls[..i + 1][..i] == calls[..i];
  }

  // ---- Files --------------------------------------------------------------------------------------

  datatype Source = Inline(lines: seq<string>) | FromSecret(secret: string, key: string)

  datatype File = File(path: string, owner: string, permissions: string, source: Source)

  datatype Known = ConnectInfoFile | InstallScriptFile | ConfigYAML

  function PathOf(k: Known): string {
    match k
    case ConnectInfoFile => "/etc/rancher/agent/" + "connect-info-config.json"
    case InstallScriptFile => "/opt/system-agent-" + "install.sh"
    case ConfigYAML => "/etc/rancher/agent/" + "config.yaml"
  }

  lemma PathsDiffer()
    ensures forall j, k :: j != k ==> PathOf(j) != PathOf(k)
  {
    assert |PathOf(ConnectInfoFile)| == 43 && |PathOf(InstallScriptFile)| == 28 && |PathOf(ConfigYAML)| == 30;
  }

  function FileFor(config: string, k: Known): File {
    File(PathOf(k), "root:root", "0600",
         match k
         case ConnectInfoFile => FromSecret(ResourceName(config, ConnectInfo), CONNECT_INFO_KEY)
         case InstallScriptFile => FromSecret(ResourceName(config, InstallScript), INSTALL_SCRIPT_KEY)
         case ConfigYAML => Inline(AgentConfig()))
  }

  function AgentConfig(): seq<string> {
    ["workDirectory: " + "/var/lib/rancher/agent/work",
     "localPlanDirectory: " + "/var/lib/rancher/agent/plans",
     "remoteEnabled: true",
     "connectionInfoFile: " + PathOf(ConnectInfoFile),
     "preserveWorkDirectory: true"]
  }

  const POST_INSTALL := "sudo sh " + PathOf(InstallScriptFile)

  predicate HasPath(files: seq<File>, path: string) {
    exists f :: f in files && f.path == path
  }

  function AddFile(files: seq<File>, f: File): seq<File> {
    if HasPath(files, f.path) then files else files + [f]
  }

  function Defaulted(files: seq<File>, config: string): seq<File> {
    AddFile(AddFile(AddFile(files, FileFor(config, ConnectInfoFile)), FileFor(config, InstallScriptFile)),
            FileFor(config, ConfigYAML))
  }

  function WithCommand(commands: seq<string>): seq<string> {
    if POST_INSTALL in commands then commands else commands + [POST_INSTALL]
  }

  /** The creates of one request, in order: a file the user supplies needs no secret. */
  function Needed(files: seq<File>): seq<Resource> {
    [PlanAccount, PlanSecret, PlanRole, PlanBinding, PlanToken]
    + (if HasPath(files, PathOf(ConnectInfoFile)) then [] else [ConnectInfo])
    + (if HasPath(files, PathOf(InstallScriptFile)) then [] else [InstallScript])
  }

  function CallsOf(namespace: string, config: string, s: Settings, rs: seq<Resource>): (calls: seq<Call>)
    ensures |calls| == |rs| && forall i :: 0 <= i < |rs| ==> calls[i] == Call(namespace, config, s, rs[i])
  {
    seq(|rs|, i requires 0 <= i < |rs| => Call(namespace, config, s, rs[i]))
  }

  function RequestCalls(namespace: string, config: string, files: seq<File>, s: Settings): seq<Call> {
    CallsOf(namespace, config, s, Needed(files))
  }

  function Given(server: Option<string>, ca: Option<string>, token: string): Settings {
    Settings(if server.Some? then server.value else "", if ca.Some? then ca.value else "", token)
  }

  predicate Supplied(server: Option<string>, ca: Option<string>, token: string) {
    token != "" && server.Some? && server.value != "" && ca.Some?
  }

  predicate IsTokenSecret(o: Object, plan: string) {
    o.SecretObject? && AccountName in o.labels && o.labels[AccountName] == plan
  }

  /** What a list by the account's label finds, in whatever namespace. */
  function TokenSecrets(store: Store, plan: string): set<ObjectKey> {
    set k | k in store && IsTokenSecret(store[k], plan)
  }

  // ---- The webhook ----------------------------------------------------------------------------------

  class RKE2Config {
    const name: string
    const namespace: string
    var files: seq<File>
    var commands: seq<string>

    constructor (name: string, namespace: string, files: seq<File>, commands: seq<string>)
      ensures this.name == name && this.namespace == namespace
      ensures this.files == files && this.commands == commands
    {
      this.name, this.namespace, this.files, this.commands := name, namespace, files, commands;
    }

    method HasFile(path: string) returns (found: bool)
      ensures found == HasPath(files, path)
    {
      for i := 0 to |files|
        invariant !HasPath(files[..i], path)
      {
        if files[i].path == path {
          return true;
        }
        assert files[..i + 1] == files[..i] + [files[i]];
      }
      assert files[..|files|] == files;
      found := false;
    }
  }

  class RKE2ConfigWebhook {
    /** No call fails. */
    const calm: bool
    /** The objects of the API server. */
    var stored: Store

    constructor (calm: bool)
      ensures this.calm == calm && stored == map[]
    {
      this.calm := calm;
      stored := map[];
    }

    method CallFails() returns (fails: bool)
      ensures calm ==> !fails
    {
      var trouble: bool := *;
      fails := trouble && !calm;
    }

    /** A create that fails has had no effect or its whole effect. */
    method Create(c: Call) returns (ok: bool, ghost took: bool)
      modifies this
      ensures (ok ==> took) && (calm ==> ok)
      ensures stored == if took then Created(old(stored), c) else old(stored)
    {
      var fails := CallFails();
      if fails {
        return false, false;
      }
      if CallKey(c) !in stored {
        stored := stored[CallKey(c) := ObjectOf(c.namespace, c.config, c.settings, c.resource)];
      }
      var lost := CallFails();
      ok, took := !lost, true;
    }

    method CreateSecretPlanResources(config: RKE2Config, s: Settings) returns (ok: bool, ghost made: nat)
      modifies this
      ensures made <= 5 && (ok ==> made == 5) && (calm ==> ok)
      ensures stored == CreateAll(old(stored), CallsOf(config.namespace, config.name, s, Needed(config.files))[..made])
    {
      var resources := [PlanAccount, PlanSecret, PlanRole, PlanBinding, PlanToken];
      ghost var calls := CallsOf(config.namespace, config.name, s, Needed(config.files));
      for i := 0 to 5
        invariant stored == CreateAll(old(stored), calls[..i])
      {
        ghost var took;
        ok, took := Create(Call(config.namespace, config.name, s, resources[i]));
        OneMore(old(stored), calls, i);
        if !ok {
          return false, if took then i + 1 else i;
        }
      }
      return true, 5;
    }

    method CreateConnectInfoJson(config: RKE2Config, s: Settings) returns (ok: bool, ghost took: bool)
      modifies this, config`files
      ensures config.files
           == if ok then AddFile(old(config.files), FileFor(config.name, ConnectInfoFile)) else old(config.files)
      ensures if HasPath(old(config.files), PathOf(ConnectInfoFile)) then !took else ok ==> took
      ensures calm ==> ok
      ensures stored == if took then Created(old(stored), Call(config.namespace, config.name, s, ConnectInfo))
                        else old(stored)
    {
      var found := config.HasFile(PathOf(ConnectInfoFile));
      if found {
        return true, false;
      }
      var fails := CallFails();
      if fails {
        return false, false;
      }
      ok, took := Create(Call(config.namespace, config.name, s, ConnectInfo));
      if ok {
        config.files := config.files + [FileFor(config.name, ConnectInfoFile)];
      }
    }

    method CreateSystemAgentInstallScript(config: RKE2Config, s: Settings) returns (ok: bool, ghost took: bool)
      modifies this, config`files
      ensures config.files
           == if ok then AddFile(old(config.files), FileFor(config.name, InstallScriptFile)) else old(config.files)
      ensures if HasPath(old(config.files), PathOf(InstallScriptFile)) then !took else ok ==> took
      ensures calm ==> ok
      ensures stored == if took then Created(old(stored), Call(config.namespace, config.name, s, InstallScript))
                        else old(stored)
    {
      var found := config.HasFile(PathOf(InstallScriptFile));
      if found {
        return true, false;
      }
      ok, took := Create(Call(config.namespace, config.name, s, InstallScript));
      if ok {
        config.files := config.files + [FileFor(config.name, InstallScriptFile)];
      }
    }

    method CreateConfigYAML(config: RKE2Config)
      modifies config`files
      ensures config.files == AddFile(old(config.files), FileFor(config.name, ConfigYAML))
    {
      var found := config.HasFile(PathOf(ConfigYAML));
      if !found {
        config.files := config.files + [FileFor(config.name, ConfigYAML)];
      }
    }

    method AddPostInstallCommands(config: RKE2Config)
      modifies config`commands
      ensures config.commands == WithCommand(old(config.commands))
    {
      for i := 0 to |config.commands|
        invariant POST_INSTALL !in config.commands[..i]
        invariant config.commands == old(config.commands)
      {
        if config.commands[i] == POST_INSTALL {
          return;
        }
      }
      assert config.commands[..|config.commands|] == config.commands;
      config.commands := config.commands + [POST_INSTALL];
    }

    /** The two files that come with a secret, once the plan resources are there. */
    method CreateSecretFiles(config: RKE2Config, s: Settings, ghost start: Store) returns (ok: bool, ghost made: nat)
      requires stored == CreateAll(start, RequestCalls(config.namespace, config.name, config.files, s)[..5])
      modifies this, config`files
      ensures made <= |Needed(old(config.files))| && (ok ==> made == |Needed(old(config.files))|) && (calm ==> ok)
      ensures stored == CreateAll(start, RequestCalls(config.namespace, config.name, old(config.files), s)[..made])
      ensures ok ==> config.files == AddFile(AddFile(old(config.files), FileFor(config.name, ConnectInfoFile)),
                                             FileFor(config.name, InstallScriptFile))
    {
      ghost var calls := RequestCalls(config.namespace, config.name, config.files, s);
      AddKnown(config.files, config.name, ConnectInfoFile);
      made := 5;
      ghost var took;
      ok, took := CreateConnectInfoJson(config, s);
      if took {
        OneMore(start, calls, made);
        made := made + 1;
      }
      if !ok {
        return;
      }
      ok, took := CreateSystemAgentInstallScript(config, s);
      if took {
        OneMore(start, calls, made);
        made := made + 1;
      }
      if !ok {
        return;
      }
    }

    /** Handles one admission request. A setting that is not a string reads as None, `token`
        is what the listed token secret holds, and `made` counts the creates that were done.
        A request that fails is turned down, so its config is dropped. Unless a call fails,
        a request succeeds exactly if the settings are there and its token secret is the
        only one of its name in all namespaces. */
    method Default(config: RKE2Config, server: Option<string>, ca: Option<string>, token: string)
      returns (ok: bool, ghost made: nat)
      modifies this, config
      ensures made <= |Needed(old(config.files))|
      ensures stored == CreateAll(old(stored), RequestCalls(config.namespace, config.name, old(config.files),
                                                            Given(server, ca, token))[..made])
      ensures var s := Given(server, ca, token);
              var first := RequestCalls(config.namespace, config.name, old(config.files), s)[..5];
              var met := Supplied(server, ca, token)
                         && |TokenSecrets(CreateAll(old(stored), first), PlanSecretName(config.name))| == 1;
              (ok ==> met) && (calm ==> (ok <==> met))
      ensures ok ==> made == |Needed(old(config.files))|
      ensures ok ==> Given(server, ca, token) == Settings(server.value, ca.value, token)
      ensures ok ==> config.files == Defaulted(old(config.files), config.name)
      ensures ok ==> config.commands == WithCommand(old(config.commands))
      ensures !ok ==> config.commands == old(config.commands)
    {
      var s := Given(server, ca, token);
      ok, made := CreateSecretPlanResources(config, s);
      if !ok {
        return;
      }
      var fails := CallFails();
      if fails || |TokenSecrets(stored, PlanSecretName(config.name))| != 1 || !Supplied(server, ca, token) {
        return false, made;
      }
      ok, made := CreateSecretFiles(config, s, old(stored));
      if !ok {
        return;
      }
      CreateConfigYAML(config);
      AddPostInstallCommands(config);
    }
  }

  // ---- Twice is once --------------------------------------------------------------------------------

  predicate IsPrefix<T(==)>(s: seq<T>, t: seq<T>) { |s| <= |t| && t[..|s|] == s }

  lemma AddKnown(files: seq<File>, config: string, k: Known)
    ensures var added := AddFile(files, FileFor(config, k));
            && IsPrefix(files, added)
            && (forall j :: HasPath(added, PathOf(j)) <==> HasPath(files, PathOf(j)) || j == k)
            && forall f :: f in added ==> f in files || (f == FileFor(config, k) && !HasPath(files, PathOf(k)))
  {
    PathsDiffer();
    var f := FileFor(config, k);
    assert f in files + [f];
    forall j | HasPath(files, PathOf(j)) ensures HasPath(AddFile(files, f), PathOf(j)) {
      var g :| g in files && g.path == PathOf(j);
      assert g in AddFile(files, f);
    }
  }

  /** The original files stay in front, every path is there, only missing paths are added,
      and nothing more is added the second time. */
  lemma DefaultedOnce(files: seq<File>, config: string)
    ensures IsPrefix(files, Defaulted(files, config))
    ensures forall k :: HasPath(Defaulted(files, config), PathOf(k))
    ensures forall f :: f in Defaulted(files, config) ==>
              f in files || exists k :: f == FileFor(config, k) && !HasPath(files, PathOf(k))
    ensures Defaulted(Defaulted(files, config), config) == Defaulted(files, config)
  {
    var one := AddFile(files, FileFor(config, ConnectInfoFile));
    var two := AddFile(one, FileFor(config, InstallScriptFile));
    AddKnown(files, config, ConnectInfoFile);
    AddKnown(one, config, InstallScriptFile);
    AddKnown(two, config, ConfigYAML);
  }

  lemma CommandOnce(commands: seq<string>)
    ensures IsPrefix(commands, WithCommand(commands)) && POST_INSTALL in WithCommand(commands)
    ensures WithCommand(WithCommand(commands)) == WithCommand(commands)
  {
  }

  // ---- Interrupted and interleaved requests ------------------------------------------------------------

  lemma KeysAreInjective(c: Call, d: Call)
    ensures CallKey(c) == CallKey(d) <==>
            c.namespace == d.namespace && c.config == d.config && c.resource == d.resource
  {
    NamesAreInjective(c.config, c.resource, d.config, d.resource);
  }

  /** A key is stored exactly if some call made it, and what is stored there is what one
      of the calls for that key made. */
  lemma {:induction false} Origin(store: Store, calls: seq<Call>, key: ObjectKey)
    ensures var after := CreateAll(store, calls);
            && (key in after <==> key in store || exists c :: c in calls && CallKey(c) == key)
            && (key in store ==> after[key] == store[key])
            && (key in after && key !in store ==>
                  exists c :: c in calls && CallKey(c) == key
                              && after[key] == ObjectOf(c.namespace, c.config, c.settings, c.resource))
    decreases |calls|
  {
    if calls != [] {
      Origin(store, calls[..|calls| - 1], key);
    }
  }

  lemma {:induction false} CreateAllSplits(store: Store, calls: seq<Call>, more: seq<Call>)
    ensures CreateAll(store, calls + more) == CreateAll(CreateAll(store, calls), more)
    decreases |more|
  {
    if more == [] {
      assert calls + more == calls;
    } else {
      var n := |more| - 1;
      var all := calls + more;
      CreateAllSplits(store, calls, more[..n]);
      assert |all| - 1 == |calls| + n;
      assert all[..|all| - 1] == calls + more[..n];
      assert all[|all| - 1] == more[n];
    }
  }

  /** Calls whose objects are all stored change nothing. */
  lemma {:induction false} NothingToCreate(store: Store, calls: seq<Call>)
    requires forall c :: c in calls ==> CallKey(c) in store
    ensures CreateAll(store, calls) == store
    decreases |calls|
  {
    if calls != [] {
      NothingToCreate(store, calls[..|calls| - 1]);
    }
  }

  /** What is left after tries of one request, each cut short after some of its creates. */
  function AfterTries(store: Store, calls: seq<Call>, cuts: seq<nat>): Store
    requires forall i :: 0 <= i < |cuts| ==> cuts[i] <= |calls|
    decreases |cuts|
  {
    if cuts == [] then store else AfterTries(CreateAll(store, calls[..cuts[0]]), calls, cuts[1..])
  }

  /** A request that failed any number of times, anywhere, and then goes through leaves
      what it leaves when it goes through at once. */
  lemma {:induction false} RetriesAddNothing(store: Store, calls: seq<Call>, cuts: seq<nat>)
    requires forall i :: 0 <= i < |cuts| ==> cuts[i] <= |calls|
    ensures CreateAll(AfterTries(store, calls, cuts), calls) == CreateAll(store, calls)
    decreases |cuts|
  {
    if cuts != [] {
      var first := calls[..cuts[0]];
      var one := CreateAll(store, first);
      RetriesAddNothing(one, calls, cuts[1..]);
      assert calls == first + calls[cuts[0]..];
      CreateAllSplits(store, first, calls[cuts[0]..]);
      CreateAllSplits(one, first, calls[cuts[0]..]);
      forall c | c in first ensures CallKey(c) in one {
        Origin(store, first, CallKey(c));
      }
      NothingToCreate(one, first);
    }
  }

  /** Defaulting a defaulted config again creates nothing either, whatever the settings
      have become and whatever requests came in between. */
  lemma DefaultTwice(
    store: Store, namespace: string, config: string, files: seq<File>, s: Settings, between: seq<Call>, t: Settings)
    ensures var later := CreateAll(CreateAll(store, RequestCalls(namespace, config, files, s)), between);
            CreateAll(later, RequestCalls(namespace, config, Defaulted(files, config), t)) == later
  {
    var calls := RequestCalls(namespace, config, files, s);
    var once := CreateAll(store, calls);
    var again := RequestCalls(namespace, config, Defaulted(files, config), t);
    DefaultedOnce(files, config);
    forall c | c in again ensures CallKey(c) in CreateAll(once, between) {
      var i :| 0 <= i < |again| && again[i] == c;
      assert again[i].resource == calls[i].resource;
      assert CallKey(c) == CallKey(calls[i]);
      Origin(store, calls, CallKey(c));
      Origin(once, between, CallKey(c));
    }
    NothingToCreate(CreateAll(once, between), again);
  }

  /** However the creates of any requests interleave, what is stored for a resource of a
      config was made for that resource of that config. */
  lemma NobodyElsesObject(log: seq<Call>, c: Call)
    requires c in log
    ensures CallKey(c) in CreateAll(map[], log)
    ensures exists d :: d in log && SameTarget(c, d)
              && CreateAll(map[], log)[CallKey(c)] == ObjectOf(c.namespace, c.config, d.settings, c.resource)
  {
    Origin(map[], log, CallKey(c));
    var d :| d in log && CallKey(d) == CallKey(c)
      && CreateAll(map[], log)[CallKey(c)] == ObjectOf(d.namespace, d.config, d.settings, d.resource);
    KeysAreInjective(c, d);
  }

  predicate SameTarget(c: Call, d: Call) {
    d.namespace == c.namespace && d.config == c.config && d.resource == c.resource
  }

  /** Of the five plan resources only the names depend on the request. */
  predicate PlanResourcesStand(store: Store, namespace: string, config: string) {
    var plan := PlanSecretName(config);
    && Stands(store, ObjectKey(ServiceAccount, namespace, plan),
              AccountObject(map[ConfigName := config, PlanSecretOf := plan]))
    && Stands(store, ObjectKey(Secret, namespace, plan),
              SecretObject("cluster-api.cattle.io" + "/machine-plan", map[ConfigName := config], map[], map[]))
    && Stands(store, ObjectKey(Role, namespace, plan),
              RoleObject(["watch", "get", "update", "list"], ["secrets"], [plan]))
    && Stands(store, ObjectKey(RoleBinding, namespace, plan), BindingObject(plan, namespace, plan))
    && Stands(store, ObjectKey(Secret, namespace, plan + "-token"),
              SecretObject("kubernetes.io" + "/service-account-token",
                           map[AccountName := plan], map[AccountName := plan], map[]))
  }

  predicate Stands(store: Store, key: ObjectKey, o: Object) { key in store && store[key] == o }

  /** The settings some request for this resource of this config came with. */
  predicate GivenFor(log: seq<Call>, namespace: string, config: string, r: Resource, t: Settings) {
    exists d :: d in log && d.namespace == namespace && d.config == config && d.resource == r && d.settings == t
  }

  lemma StandsAs(log: seq<Call>, c: Call) returns (t: Settings)
    requires c in log
    ensures GivenFor(log, c.namespace, c.config, c.resource, t)
    ensures Stands(CreateAll(map[], log), CallKey(c), ObjectOf(c.namespace, c.config, t, c.resource))
  {
    NobodyElsesObject(log, c);
    var d :| d in log && SameTarget(c, d)
      && CreateAll(map[], log)[CallKey(c)] == ObjectOf(c.namespace, c.config, d.settings, c.resource);
    t := d.settings;
  }

  /** Once a request has gone through, among any others: the plan resources stand under the
      name the restore controller looks up, the account of the connect-info file may use
      that secret and no other, a connect-info file that was added points to it with the
      server, authority and token of a request for this config, and so does the script. */
  lemma AgentReachesItsPlan(log: seq<Call>, namespace: string, config: string, files: seq<File>, s: Settings)
    requires forall c :: c in RequestCalls(namespace, config, files, s) ==> c in log
    ensures PlanResourcesStand(CreateAll(map[], log), namespace, config)
    ensures !HasPath(files, PathOf(ConnectInfoFile)) ==> exists t ::
              && GivenFor(log, namespace, config, ConnectInfo, t)
              && Stands(CreateAll(map[], log),
                   ObjectKey(Secret, namespace, config + ("-system-agent-" + "connect-info-config")),
                   SecretObject("", map[], map[], map["connect-info" + "-config.json" :=
                     ConnectInfoJson(namespace, PlanSecretName(config), t.server, t.ca, t.token)]))
    ensures !HasPath(files, PathOf(InstallScriptFile)) ==> exists t ::
              && GivenFor(log, namespace, config, InstallScript, t)
              && Stands(CreateAll(map[], log),
                   ObjectKey(Secret, namespace, config + ("-system-agent-" + "install-script")),
                   SecretObject("", map[], map[], map["install.sh" := InstallScriptFor(t.server)]))
  {
    var calls := RequestCalls(namespace, config, files, s);
    forall i | 0 <= i < |calls| ensures calls[i] in log {
    }
    var t0 := StandsAs(log, calls[0]);
    var t1 := StandsAs(log, calls[1]);
    var t2 := StandsAs(log, calls[2]);
    var t3 := StandsAs(log, calls[3]);
    var t4 := StandsAs(log, calls[4]);
    if !HasPath(files, PathOf(ConnectInfoFile)) {
      var t5 := StandsAs(log, calls[5]);
    }
    if !HasPath(files, PathOf(InstallScriptFile)) {
      var t6 := StandsAs(log, calls[|calls| - 1]);
    }
  }

  /** The files added to a config, in full: the agent's configuration names the connect-info
      file, the two other files are the secrets' contents, and the command runs the script. */
  lemma FilesAre(config: string)
    ensures FileFor(config, ConnectInfoFile)
         == File("/etc/rancher/agent/" + "connect-info-config.json", "root:root", "0600",
                 FromSecret(config + ("-system-agent-" + "connect-info-config"), "connect-info" + "-config.json"))
    ensures FileFor(config, InstallScriptFile)
         == File("/opt/system-agent-" + "install.sh", "root:root", "0600",
                 FromSecret(config + ("-system-agent-" + "install-script"), "install.sh"))
    ensures FileFor(config, ConfigYAML)
         == File("/etc/rancher/agent/" + "config.yaml", "root:root", "0600",
                 Inline(["workDirectory: " + "/var/lib/rancher/agent/work",
                         "localPlanDirectory: " + "/var/lib/rancher/agent/plans",
                         "remoteEnabled: true",
                         "connectionInfoFile: " + FileFor(config, ConnectInfoFile).path,
                         "preserveWorkDirectory: true"]))
    ensures POST_INSTALL == "sudo sh " + FileFor(config, InstallScriptFile).path
  {
  }

  // ---- Token secrets ------------------------------------------------------------------------------------

  lemma OnlyTokensAreListed(namespace: string, config: string, s: Settings, r: Resource, other: string)
    ensures IsTokenSecret(ObjectOf(namespace, config, s, r), PlanSecretName(other))
       <==> r == PlanToken && config == other
  {
    NamesAreInjective(config, PlanSecret, other, PlanSecret);
  }

  lemma TwoMembers<T>(s: set<T>, a: T, b: T)
    requires a in s && b in s && a != b
    ensures |s| >= 2
  {
    assert |s - {a}| == |s| - 1 && b in s - {a};
  }

  /** The token secret is looked for by its label in all namespaces: once the creates of any
      requests are done, exactly one is found for a config if and only if no config of that
      name in another namespace has one. Two such configs make each other's requests fail. */
  lemma TokenIsFound(log: seq<Call>, c: Call)
    requires c in log && c.resource == PlanToken
    ensures |TokenSecrets(CreateAll(map[], log), PlanSecretName(c.config))| == 1
       <==> forall d :: d in log && d.resource == PlanToken && d.config == c.config ==> d.namespace == c.namespace
  {
    var store := CreateAll(map[], log);
    var found := TokenSecrets(store, PlanSecretName(c.config));
    forall d | d in log && d.resource == PlanToken && d.config == c.config ensures CallKey(d) in found {
      IsListed(log, d);
    }
    if forall d :: d in log && d.resource == PlanToken && d.config == c.config ==> d.namespace == c.namespace {
      forall k | k in found ensures k == CallKey(c) {
        ListedFrom(log, k, c.config);
      }
      assert found == {CallKey(c)};
    } else {
      var d :| d in log && d.resource == PlanToken && d.config == c.config && d.namespace != c.namespace;
      TwoMembers(found, CallKey(c), CallKey(d));
    }
  }

  lemma IsListed(log: seq<Call>, d: Call)
    requires d in log && d.resource == PlanToken
    ensures CallKey(d) in TokenSecrets(CreateAll(map[], log), PlanSecretName(d.config))
  {
    NobodyElsesObject(log, d);
    var e :| e in log && SameTarget(d, e)
      && CreateAll(map[], log)[CallKey(d)] == ObjectOf(d.namespace, d.config, e.settings, d.resource);
    OnlyTokensAreListed(d.namespace, d.config, e.settings, d.resource, d.config);
  }

  lemma ListedFrom(log: seq<Call>, k: ObjectKey, config: string)
    requires k in TokenSecrets(CreateAll(map[], log), PlanSecretName(config))
    ensures exists d :: d in log && d.resource == PlanToken && d.config == config && CallKey(d) == k
  {
    Origin(map[], log, k);
    var d :| d in log && CallKey(d) == k
      && CreateAll(map[], log)[k] == ObjectOf(d.namespace, d.config, d.settings, d.resource);
    OnlyTokensAreListed(d.namespace, d.config, d.settings, d.resource, config);
  }
}
