/** What the instructions' command texts say, read as the shell commands they are, and that
    their modelled effects are the effects of those commands. */
module Shell {
  import opened Instructions

  /** The commands in use, with the words they are given. */
  datatype Command =
    | DeleteLines(word: string)
    | AppendLine(line: string)
    | RemoveTree(path: string)
    | RemoveFiles(pattern: string)
    | StartUnit(unit: string)
    | KillScript
    | ClusterReset(path: string)

  const CONFIG := " /etc/rancher/rke2/config.yaml"
  const MANIFESTS := "/var/lib/rancher/rke2/server/manifests/"
  const ETCD := "/var/lib/rancher/rke2/server/db/etcd"
  const SERVER_UNIT := "rke2-server.service"

  /** The arguments of `/bin/sh` for each command; the single quotes hold words without
      quotes. */
  function Words(c: Command): seq<string> {
    match c
    case DeleteLines(word) => ["-c", "sed -i '/^" + word + "/d'" + CONFIG]
    case AppendLine(line) => ["-c", "echo '" + line + "' >>" + CONFIG]
    case RemoveTree(path) => ["-c", "rm -rf " + path]
    case RemoveFiles(pattern) => ["-c", "rm -rf " + (MANIFESTS + pattern)]
    case StartUnit(unit) => ["-c", "systemctl start " + unit]
    case KillScript => ["-c", "if [ -z $(command -v rke2) ] && [ -z $(command -v rke2-killall.sh) ]; "
      + "then echo rke2 does not appear to be installed; " + "exit 0; else rke2-killall.sh; fi"]
    case ClusterReset(path) => ["-c", "rke2 server --cluster-reset", "--cluster-reset-restore-path=" + path]
  }

  /** The lines that do not start with the word, in order. */
  function Without(word: string, lines: seq<string>): seq<string> {
    if lines == [] then []
    else if word <= lines[0] then Without(word, lines[1..])
    else [lines[0]] + Without(word, lines[1..])
  }

  /** A shell pattern in which only `*` is special. */
  predicate Glob(pattern: string, name: string)
    decreases |pattern| + |name|
  {
    if pattern == "" then name == ""
    else if pattern[0] == '*' then Glob(pattern[1..], name) || (name != "" && Glob(pattern, name[1..]))
    else name != "" && name[0] == pattern[0] && Glob(pattern[1..], name[1..])
  }

  /** What a command does to a machine. */
  function Run(c: Command, h: Host): Host {
    match c
    case DeleteLines(word) => h.(config := Without(word, h.config))
    case AppendLine(line) => h.(config := h.config + [line])
    case RemoveTree(path) => if path == ETCD then h.(etcd := Wiped) else h
    case RemoveFiles(pattern) => h.(manifests := set m | m in h.manifests && !Glob(pattern, m))
    case StartUnit(unit) =>
      if unit == SERVER_UNIT && !h.running then h.(running := true, etcd := StartedEtcd(h)) else h
    case KillScript => h.(running := false)
    case ClusterReset(path) => h.(etcd := Restored(path))
  }

  // ---- Patterns ------------------------------------------------------------------------------

  predicate NoStar(s: string) { forall i :: 0 <= i < |s| ==> s[i] != '*' }

  lemma {:induction false} GlobText(text: string, rest: string, name: string)
    requires NoStar(text)
    ensures Glob(text + rest, name) <==> text <= name && Glob(rest, name[|text|..])
  {
    if text == "" {
      assert text + rest == rest && name[0..] == name;
    } else {
      assert (text + rest)[0] == text[0] && (text + rest)[1..] == text[1..] + rest;
      if name != "" && name[0] == text[0] {
        GlobText(text[1..], rest, name[1..]);
        assert text <= name <==> text[1..] <= name[1..];
        assert text <= name ==> name[1..][|text| - 1..] == name[|text|..];
      }
    }
  }

  lemma {:induction false} GlobOnly(text: string, name: string)
    requires NoStar(text)
    ensures Glob(text, name) <==> name == text
  {
    GlobText(text, "", name);
    assert text + "" == text;
  }

  lemma {:induction false} GlobStar(text: string, name: string)
    requires NoStar(text)
    ensures Glob(['*'] + text, name) <==> |name| >= |text| && name[|name| - |text|..] == text
  {
    var pattern := ['*'] + text;
    assert pattern[1..] == text;
    GlobOnly(text, name);
    if name != "" {
      GlobStar(text, name[1..]);
      if |name| > |text| {
        assert name[1..][|name| - 1 - |text|..] == name[|name| - |text|..];
      }
    }
  }

  /** The manifests that are purged are those the pattern in the command matches. */
  lemma ManifestPattern(name: string)
    ensures Glob("rke2-" + (['*'] + ".yaml"), name) <==> IsRke2Manifest(name)
  {
    GlobText("rke2-", ['*'] + ".yaml", name);
    if "rke2-" <= name {
      GlobStar(".yaml", name[5..]);
      if |name| >= 10 {
        assert name[5..][|name| - 10..] == name[|name| - 5..];
      }
    }
  }

  // ---- Texts and effects -----------------------------------------------------------------------

  lemma {:induction false} ServerWord(lines: seq<string>)
    ensures Without("server:", lines) == NonServer(lines)
  {
    if lines != [] {
      ServerWord(lines[1..]);
    }
  }

  lemma Regroup(a: string, b: string, ip: string, d: string, e: string)
    ensures (a + b) + ip + (d + e) == a + (b + ip + d) + e
  {
  }

  lemma ServerUrlText(ip: string)
    ensures Args(AddServerUrl(ip)) == Words(AppendLine("server: https://" + ip + ":9345"))
  {
    EchoText();
    PortText();
    Regroup("echo '", "server: https://", ip, ":9345", "' >> /etc/rancher/rke2/config.yaml");
    TailText();
  }

  lemma EchoText()
    ensures "echo 'server: https://" == "echo '" + "server: https://"
  {
  }

  lemma PortText()
    ensures ":9345' >> /etc/rancher/rke2/config.yaml" == ":9345" + "' >> /etc/rancher/rke2/config.yaml"
  {
  }

  lemma TailText()
    ensures forall s: string :: s + "' >>" + CONFIG == s + "' >> /etc/rancher/rke2/config.yaml"
  {
    assert "' >>" + CONFIG == "' >> /etc/rancher/rke2/config.yaml";
    forall s: string ensures s + "' >>" + CONFIG == s + "' >> /etc/rancher/rke2/config.yaml" {
      assert s + "' >>" + CONFIG == s + ("' >>" + CONFIG);
    }
  }

  lemma SedText()
    ensures "sed -i '/^server:" == "sed -i '/^" + "server:"
  {
  }

  lemma SedTail()
    ensures "/d' /etc/rancher/rke2/config.yaml" == "/d'" + CONFIG
  {
  }

  lemma DeleteText()
    ensures Args(RemoveServerUrl) == Words(DeleteLines("server:"))
  {
    SedText();
    SedTail();
    var sed := "sed -i '/^" + "server:";
    assert sed + "" == sed && "server:" + "" + "/d'" == "server:" + "/d'";
    assert sed + ("/d'" + CONFIG) == sed + "/d'" + CONFIG;
  }

  lemma ManifestText()
    ensures Args(RemoveManifests) == Words(RemoveFiles("rke2-" + (['*'] + ".yaml")))
  {
    assert "rke2-*.yaml" == "rke2-" + (['*'] + ".yaml");
  }

  lemma TextOf(op: Op) returns (c: Command)
    requires Own(op)
    ensures Args(op) == Words(c)
    ensures forall h :: Exec(op, h) == Run(c, h)
  {
    match op
    case KillAll => c := KillScript;
    case EtcdRestore(path) => c := ClusterReset(path);
    case RemoveManifests =>
      ManifestText();
      c := RemoveFiles("rke2-" + (['*'] + ".yaml"));
      forall h ensures Exec(op, h) == Run(c, h) {
        forall m ensures Glob("rke2-" + (['*'] + ".yaml"), m) <==> IsRke2Manifest(m) {
          ManifestPattern(m);
        }
      }
    case RemoveServerUrl =>
      DeleteText();
      c := DeleteLines("server:");
      forall h ensures Exec(op, h) == Run(c, h) {
        ServerWord(h.config);
      }
    case AddServerUrl(ip) =>
      ServerUrlText(ip);
      c := AppendLine("server: https://" + ip + ":9345");
    case RemoveEtcdData => c := RemoveTree(ETCD);
    case StartRKE2 => c := StartUnit(SERVER_UNIT);
  }

  /** Every instruction's effect on every machine is that of the command its text spells. */
  lemma TextsMeanEffects(op: Op)
    requires Own(op)
    ensures exists c :: Args(op) == Words(c) && forall h :: Exec(op, h) == Run(c, h)
  {
    var c := TextOf(op);
  }
}
