/** The one-time instructions a restore hands to the agents, as the source writes
    them down and as the effect each one is meant to have on a machine. */
module Instructions {

  /** What the agent reads: one shell command of a plan. */
  datatype OneTimeInstruction = OneTimeInstruction(
    name: string, image: string, env: seq<string>, args: seq<string>, command: string, saveOutput: bool)

  /** The instructions by intent. `Foreign` stands for any instruction the restore
      did not write: it may leave the machine in whatever state it names. */
  datatype Op =
    | KillAll
    | EtcdRestore(path: string)
    | RemoveManifests
    | RemoveServerUrl
    | AddServerUrl(ip: string)
    | RemoveEtcdData
    | StartRKE2
    | Foreign(outcome: Host)

  type Plan = seq<Op>

  /** What a machine's etcd directory holds. `Joined` is replicated from the server
      its configuration line names, `Fresh` is a new cluster without any data. */
  datatype Etcd = Original(id: string) | Restored(path: string) | Wiped | Joined(line: string) | Fresh

  datatype Host = Host(running: bool, etcd: Etcd, config: seq<string>, manifests: set<string>)

  // ---- The instruction builders -------------------------------------------------

  predicate Own(op: Op) { !op.Foreign? }

  function Name(op: Op): (name: string)
    requires Own(op)
    ensures name != ""
  {
    match op
    case KillAll => "shutdown"
    case EtcdRestore(path) => "etcd-restore"
    case RemoveManifests => "remove-server-manifests"
    case RemoveServerUrl => "remove-server-manifests"
    case AddServerUrl(ip) => "add-server-url-to-config"
    case RemoveEtcdData => "remove-etcd-db-dir"
    case StartRKE2 => "start-rke2"
  }

  /** The arguments of `/bin/sh`. */
  function Args(op: Op): (args: seq<string>)
    requires Own(op)
    ensures |args| >= 2
  {
    match op
    case KillAll => ["-c", "if [ -z $(command -v rke2) ] && [ -z $(command -v rke2-killall.sh) ]; "
      + "then echo rke2 does not appear to be installed; " + "exit 0; else rke2-killall.sh; fi"]
    case EtcdRestore(path) => ["-c", "rke2 server --cluster-reset", "--cluster-reset-restore-path=" + path]
    case RemoveManifests => ["-c", "rm -rf " + ("/var/lib/rancher/rke2/server/manifests/" + "rke2-*.yaml")]
    case RemoveServerUrl => ["-c", "sed -i '/^server:" + "/d' /etc/rancher/rke2/config.yaml"]
    case AddServerUrl(ip) => ["-c", "echo 'server: https://" + ip + ":9345' >> /etc/rancher/rke2/config.yaml"]
    case RemoveEtcdData => ["-c", "rm -rf " + "/var/lib/rancher/rke2/server/db/etcd"]
    case StartRKE2 => ["-c", "systemctl start " + "rke2-server.service"]
  }

  function Build(op: Op): OneTimeInstruction
    requires Own(op)
  {
    OneTimeInstruction(Name(op), "", [], Args(op), "/bin/sh", true)
  }

  function BuildAll(p: Plan): seq<OneTimeInstruction>
    requires forall op :: op in p ==> Own(op)
  {
    seq(|p|, i requires 0 <= i < |p| => Build(p[i]))
  }

  /** `strings.TrimPrefix`. */
  function TrimPrefix(s: string, prefix: string): string {
    if prefix <= s then s[|prefix|..] else s
  }

  lemma TrimPrefixIs(s: string, prefix: string, rest: string)
    ensures TrimPrefix(prefix + rest, prefix) == rest
    ensures !(prefix <= s) ==> TrimPrefix(s, prefix) == s
  {
    assert prefix <= prefix + rest;
  }

  /** Every instruction runs `/bin/sh -c` with saved output, under the name the agent logs. */
  lemma BuildIs(op: Op)
    requires Own(op)
    ensures Build(op).command == "/bin/sh" && Build(op).saveOutput && Build(op).image == "" && Build(op).env == []
    ensures |Build(op).args| >= 2 && Build(op).args[0] == "-c"
    ensures op == KillAll ==> Build(op).name == "shutdown"
    ensures op.EtcdRestore? ==> Build(op).name == "etcd-restore"
    ensures op == RemoveManifests || op == RemoveServerUrl ==> Build(op).name == "remove-server-manifests"
    ensures op.AddServerUrl? ==> Build(op).name == "add-server-url-to-config"
    ensures op == RemoveEtcdData ==> Build(op).name == "remove-etcd-db-dir"
    ensures op == StartRKE2 ==> Build(op).name == "start-rke2"
  {
  }

  function KillPlan(): Plan { [KillAll] }

  function RestorePlan(path: string): Plan { [RemoveServerUrl, RemoveManifests, EtcdRestore(path)] }

  function StartPlan(): Plan { [StartRKE2] }

  function JoinPlan(ip: string): Plan {
    [RemoveServerUrl, AddServerUrl(ip), RemoveEtcdData, RemoveManifests, StartRKE2]
  }

  /** A plan that some phase of a restore writes. */
  predicate Written(p: Plan) {
    || p == KillPlan()
    || p == StartPlan()
    || (|p| == 3 && p[2].EtcdRestore? && p == RestorePlan(p[2].path))
    || (|p| == 5 && p[1].AddServerUrl? && p == JoinPlan(p[1].ip))
  }

  lemma PrefixSuffixInjective(pre: string, a: string, b: string, suf: string)
    requires pre + a + suf == pre + b + suf
    ensures a == b
  {
    assert a == (pre + a + suf)[|pre|..|pre + a + suf| - |suf|];
    assert b == (pre + b + suf)[|pre|..|pre + b + suf| - |suf|];
  }

  lemma SuffixInjective<T>(pre: seq<T>, a: seq<T>, b: seq<T>)
    requires pre + a == pre + b
    ensures a == b
  {
    assert a == (pre + a)[|pre|..] && b == (pre + b)[|pre|..];
  }

  lemma NameTellsApart(x: Op, y: Op)
    requires Own(x) && Own(y) && Name(x) == Name(y)
    ensures x == y || (x.EtcdRestore? && y.EtcdRestore?) || (x.AddServerUrl? && y.AddServerUrl?)
         || (x.RemoveManifests? && y.RemoveServerUrl?) || (x.RemoveServerUrl? && y.RemoveManifests?)
  {
    assert |Name(x)| == |Name(y)|;
  }

  lemma RemovalsDiffer()
    ensures Args(RemoveManifests) != Args(RemoveServerUrl)
  {
    assert |Args(RemoveManifests)[1]| != |Args(RemoveServerUrl)[1]|;
  }

  lemma PathTellsApart(a: string, b: string)
    requires Args(EtcdRestore(a)) == Args(EtcdRestore(b))
    ensures a == b
  {
    assert Args(EtcdRestore(a))[2] == Args(EtcdRestore(b))[2];
    SuffixInjective("--cluster-reset-restore-path=", a, b);
  }

  lemma IpTellsApart(a: string, b: string)
    requires Args(AddServerUrl(a)) == Args(AddServerUrl(b))
    ensures a == b
  {
    assert Args(AddServerUrl(a))[1] == Args(AddServerUrl(b))[1];
    PrefixSuffixInjective("echo 'server: https://", a, b, ":9345' >> /etc/rancher/rke2/config.yaml");
  }

  lemma ArgsTellApart(x: Op, y: Op)
    requires Own(x) && Own(y) && Name(x) == Name(y) && Args(x) == Args(y)
    ensures x == y
  {
    NameTellsApart(x, y);
    if x.EtcdRestore? && y.EtcdRestore? {
      PathTellsApart(x.path, y.path);
    } else if x.AddServerUrl? && y.AddServerUrl? {
      IpTellsApart(x.ip, y.ip);
    } else if x != y {
      RemovalsDiffer();
    }
  }

  /** Two intended instructions are written down the same way only if they are the
      same, even though two builders share one name. */
  lemma BuildInjective(x: Op, y: Op)
    requires Own(x) && Own(y) && Build(x) == Build(y)
    ensures x == y
  {
    assert Name(x) == Name(y) && Args(x) == Args(y) by {
      assert Name(x) == Build(x).name && Args(x) == Build(x).args;
    }
    ArgsTellApart(x, y);
  }

  lemma BuildAllInjective(p: Plan, q: Plan)
    requires forall op :: op in p ==> Own(op)
    requires forall op :: op in q ==> Own(op)
    ensures BuildAll(p) == BuildAll(q) <==> p == q
  {
    if BuildAll(p) == BuildAll(q) {
      assert |p| == |q|;
      forall i | 0 <= i < |p| ensures p[i] == q[i] {
        assert BuildAll(p)[i] == Build(p[i]) && BuildAll(q)[i] == Build(q[i]);
        BuildInjective(p[i], q[i]);
      }
    }
  }

  // ---- Effects ------------------------------------------------------------------

  /** `^server:` */
  predicate IsServerLine(line: string) { "server:" <= line }

  function ServerLine(ip: string): (line: string)
    ensures IsServerLine(line)
    ensures line == "server: https://" + ip + ":9345"
  {
    "server:" + " https://" + ip + ":9345"
  }

  function NonServer(config: seq<string>): (r: seq<string>)
    ensures forall l :: l in r ==> l in config && !IsServerLine(l)
  {
    if config == [] then []
    else if IsServerLine(config[0]) then NonServer(config[1..])
    else [config[0]] + NonServer(config[1..])
  }

  function ServerLines(config: seq<string>): (r: seq<string>)
    ensures forall l :: l in r ==> l in config && IsServerLine(l)
  {
    if config == [] then []
    else if IsServerLine(config[0]) then [config[0]] + ServerLines(config[1..])
    else ServerLines(config[1..])
  }

  /** The shell pattern `rke2-*.yaml`. */
  predicate IsRke2Manifest(file: string) {
    |file| >= 10 && "rke2-" <= file && file[|file| - 5..] == ".yaml"
  }

  function Purge(manifests: set<string>): set<string> {
    set m | m in manifests && !IsRke2Manifest(m)
  }

  /** Starting a server over an empty etcd directory joins the server its
      configuration names last, or bootstraps a cluster of its own. Starting a server that
      already runs does nothing at all. */
  function StartedEtcd(h: Host): Etcd {
    var servers := ServerLines(h.config);
    if h.etcd != Wiped then h.etcd
    else if servers == [] then Fresh
    else Joined(servers[|servers| - 1])
  }

  function Exec(op: Op, h: Host): Host {
    match op
    case KillAll => h.(running := false)
    case EtcdRestore(path) => h.(etcd := Restored(path))
    case RemoveManifests => h.(manifests := Purge(h.manifests))
    case RemoveServerUrl => h.(config := NonServer(h.config))
    case AddServerUrl(ip) => h.(config := h.config + [ServerLine(ip)])
    case RemoveEtcdData => h.(etcd := Wiped)
    case StartRKE2 => if h.running then h else h.(running := true, etcd := StartedEtcd(h))
    case Foreign(outcome) => outcome
  }

  function ExecAll(p: Plan, h: Host): Host {
    if p == [] then h else Exec(p[|p| - 1], ExecAll(p[..|p| - 1], h))
  }

  predicate Cuts(p: Plan, cuts: seq<nat>) {
    forall i :: 0 <= i < |cuts| ==> cuts[i] <= |p|
  }

  /** The machine after the agent tried the plan several times and was restarted
      each time: attempt number i got through the first `cuts[i]` instructions. */
  function Attempts(p: Plan, cuts: seq<nat>, h: Host): Host
    requires Cuts(p, cuts)
  {
    if cuts == [] then h
    else ExecAll(p[..cuts[|cuts| - 1]], Attempts(p, cuts[..|cuts| - 1], h))
  }

  lemma ExecNext(p: Plan, pc: nat, h: Host)
    requires pc < |p|
    ensures ExecAll(p[..pc + 1], h) == Exec(p[pc], ExecAll(p[..pc], h))
  {
    assert p[..pc + 1][..pc] == p[..pc];
  }

  lemma AttemptsNext(p: Plan, cuts: seq<nat>, c: nat, h: Host)
    requires c <= |p| && Cuts(p, cuts)
    ensures Cuts(p, cuts + [c])
    ensures Attempts(p, cuts + [c], h) == ExecAll(p[..c], Attempts(p, cuts, h))
  {
    assert (cuts + [c])[..|cuts|] == cuts;
  }

  // ---- What whole plans do --------------------------------------------------------

  lemma {:induction false} NonServerAppend(config: seq<string>, line: string)
    ensures NonServer(config + [line]) == NonServer(config) + (if IsServerLine(line) then [] else [line])
  {
    if config == [] {
      assert config + [line] == [line];
    } else {
      assert (config + [line])[1..] == config[1..] + [line];
      NonServerAppend(config[1..], line);
    }
  }

  lemma {:induction false} ServerLinesAppend(config: seq<string>, line: string)
    ensures ServerLines(config + [line]) == ServerLines(config) + (if IsServerLine(line) then [line] else [])
  {
    if config == [] {
      assert config + [line] == [line];
    } else {
      assert (config + [line])[1..] == config[1..] + [line];
      ServerLinesAppend(config[1..], line);
    }
  }

  lemma {:induction false} NonServerTwice(config: seq<string>)
    ensures NonServer(NonServer(config)) == NonServer(config)
    ensures ServerLines(NonServer(config)) == []
  {
    if config != [] {
      NonServerTwice(config[1..]);
      if !IsServerLine(config[0]) {
        assert NonServer(config)[1..] == NonServer(config[1..]);
      }
    }
  }

  lemma KillEffect(h: Host)
    ensures ExecAll(KillPlan(), h) == h.(running := false)
  {
    assert KillPlan()[..0] == [];
  }

  lemma StartEffect(h: Host)
    ensures ExecAll(StartPlan(), h) == if h.running then h else h.(running := true, etcd := StartedEtcd(h))
  {
    assert StartPlan()[..0] == [];
  }

  lemma Unroll3(p: Plan, h: Host)
    requires |p| == 3
    ensures ExecAll(p, h) == Exec(p[2], Exec(p[1], Exec(p[0], h)))
  {
    ExecNext(p, 2, h);
    ExecNext(p, 1, h);
    ExecNext(p, 0, h);
    assert p[..3] == p && p[..0] == [];
  }

  lemma Unroll5(p: Plan, h: Host)
    requires |p| == 5
    ensures ExecAll(p, h) == Exec(p[4], Exec(p[3], Exec(p[2], Exec(p[1], Exec(p[0], h)))))
  {
    ExecNext(p, 4, h);
    ExecNext(p, 3, h);
    ExecNext(p, 2, h);
    ExecNext(p, 1, h);
    ExecNext(p, 0, h);
    assert p[..5] == p && p[..0] == [];
  }

  /** Restoring leaves the machine's own configuration lines, drops every server
      line, and never starts or stops anything. */
  lemma RestoreEffect(path: string, h: Host)
    ensures ExecAll(RestorePlan(path), h)
         == Host(h.running, Restored(path), NonServer(h.config), Purge(h.manifests))
  {
    Unroll3(RestorePlan(path), h);
  }

  /** Joining leaves exactly one server line, the last one, and every other configuration
      line survives in order. A stopped machine's data comes from that server; under a
      server that already runs the data is removed and nothing replaces it. */
  lemma JoinEffect(ip: string, h: Host)
    ensures ExecAll(JoinPlan(ip), h)
         == Host(true, if h.running then Wiped else Joined(ServerLine(ip)),
                 NonServer(h.config) + [ServerLine(ip)], Purge(h.manifests))
    ensures ServerLines(ExecAll(JoinPlan(ip), h).config) == ["server: https://" + ip + ":9345"]
    ensures NonServer(ExecAll(JoinPlan(ip), h).config) == NonServer(h.config)
  {
    Unroll5(JoinPlan(ip), h);
    NonServerTwice(h.config);
    NonServerAppend(NonServer(h.config), ServerLine(ip));
    ServerLinesAppend(NonServer(h.config), ServerLine(ip));
  }

  // ---- Crash tolerance --------------------------------------------------------------

  /** Everything on a machine that the restore's longer plans do not overwrite. */
  function Residue(joins: bool, h: Host): Host {
    Host(joins || h.running, Wiped, NonServer(h.config), Purge(h.manifests))
  }

  /** The part of a machine that a plan's outcome can still depend on once the
      plan has started. */
  function Kept(p: Plan, h: Host): Host {
    if |p| == 1 then ExecAll(p, h) else Residue(|p| == 5, h)
  }

  lemma OpKeepsResidue(joins: bool, op: Op, h: Host)
    requires !op.KillAll? && !op.Foreign? && (op.StartRKE2? ==> joins)
    ensures Residue(joins, Exec(op, h)) == Residue(joins, h)
  {
    NonServerTwice(h.config);
    if op.AddServerUrl? {
      NonServerAppend(h.config, ServerLine(op.ip));
    }
  }

  lemma OneStepKeeps(p: Plan, i: nat, h: Host)
    requires Written(p) && i < |p|
    ensures Kept(p, Exec(p[i], h)) == Kept(p, h)
  {
    if p == KillPlan() {
      KillEffect(h);
      KillEffect(Exec(p[i], h));
    } else if p == StartPlan() {
      StartEffect(h);
      StartEffect(Exec(p[i], h));
    } else {
      OpKeepsResidue(|p| == 5, p[i], h);
    }
  }

  lemma {:induction false} PrefixKeeps(p: Plan, pc: nat, h: Host)
    requires Written(p) && pc <= |p|
    ensures Kept(p, ExecAll(p[..pc], h)) == Kept(p, h)
    decreases pc
  {
    if pc > 0 {
      ExecNext(p, pc - 1, h);
      PrefixKeeps(p, pc - 1, h);
      OneStepKeeps(p, pc - 1, ExecAll(p[..pc - 1], h));
    }
  }

  lemma {:induction false} AttemptsKeep(p: Plan, cuts: seq<nat>, h: Host)
    requires Written(p) && Cuts(p, cuts)
    ensures Kept(p, Attempts(p, cuts, h)) == Kept(p, h)
    decreases |cuts|
  {
    if cuts != [] {
      var rest := cuts[..|cuts| - 1];
      AttemptsKeep(p, rest, h);
      PrefixKeeps(p, cuts[|cuts| - 1], Attempts(p, rest, h));
    }
  }

  lemma {:induction false} PrefixRuns(ip: string, pc: nat, h: Host)
    requires pc <= 5
    ensures ExecAll(JoinPlan(ip)[..pc], h).running <==> h.running || pc == 5
    decreases pc
  {
    if pc > 0 {
      ExecNext(JoinPlan(ip), pc - 1, h);
      PrefixRuns(ip, pc - 1, h);
    }
  }

  /** A machine runs again behind tries at joining exactly if one of them got to the end. */
  lemma {:induction false} AttemptsRun(ip: string, cuts: seq<nat>, h: Host)
    requires Cuts(JoinPlan(ip), cuts)
    ensures Attempts(JoinPlan(ip), cuts, h).running <==> h.running || 5 in cuts
    decreases |cuts|
  {
    if cuts != [] {
      var rest := cuts[..|cuts| - 1];
      assert cuts == rest + [cuts[|cuts| - 1]];
      AttemptsRun(ip, rest, h);
      PrefixRuns(ip, cuts[|cuts| - 1], Attempts(JoinPlan(ip), rest, h));
    }
  }

  /** A try at joining came to its end and was lost before the agent could report it. */
  predicate LostAtTheEnd(p: Plan, cuts: seq<nat>) { |p| == 5 && |p| in cuts }

  /** What finishing a plan leaves after tries that were cut short. */
  function AfterTries(p: Plan, cuts: seq<nat>, h: Host): Host {
    if LostAtTheEnd(p, cuts) then ExecAll(p, h).(etcd := Wiped) else ExecAll(p, h)
  }

  /** However often the agent is restarted in the middle of one of the restore's plans,
      finishing the plan once has the effect of executing it exactly once, with one
      exception: a joining plan whose try was lost between its last instruction and the
      report is tried again under the running server, which loses its data. */
  lemma CrashOutcome(p: Plan, cuts: seq<nat>, h: Host)
    requires Written(p) && Cuts(p, cuts)
    ensures ExecAll(p, Attempts(p, cuts, h)) == AfterTries(p, cuts, h)
  {
    var g := Attempts(p, cuts, h);
    AttemptsKeep(p, cuts, h);
    if |p| == 3 {
      RestoreEffect(p[2].path, g);
      RestoreEffect(p[2].path, h);
    } else if |p| == 5 {
      AttemptsRun(p[1].ip, cuts, h);
      JoinEffect(p[1].ip, g);
      JoinEffect(p[1].ip, h);
    }
  }

  /** So a plan is crash tolerant exactly if it does not join, or finds the server running
      at first, or no try was lost at its very end. */
  lemma CrashTolerant(p: Plan, cuts: seq<nat>, h: Host)
    requires Written(p) && Cuts(p, cuts)
    ensures ExecAll(p, Attempts(p, cuts, h)) == ExecAll(p, h) <==> h.running || !LostAtTheEnd(p, cuts)
  {
    CrashOutcome(p, cuts, h);
    if |p| == 5 {
      JoinEffect(p[1].ip, h);
    }
  }

  /** The exception, from any stopped machine: two whole executions leave a running server
      over an empty directory, where one would have joined it. */
  lemma JoiningTwice(ip: string, h: Host)
    requires !h.running
    ensures Cuts(JoinPlan(ip), [5])
    ensures ExecAll(JoinPlan(ip), h).running && ExecAll(JoinPlan(ip), h).etcd == Joined(ServerLine(ip))
    ensures var twice := ExecAll(JoinPlan(ip), Attempts(JoinPlan(ip), [5], h));
            twice.running && twice.etcd == Wiped
  {
    JoinEffect(ip, h);
    CrashOutcome(JoinPlan(ip), [5], h);
  }
}
