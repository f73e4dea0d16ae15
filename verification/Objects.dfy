/** The child objects of a server and how they are built from its spec. */
module Objects {
  import opened Api
  import opened Config

  type Labels = map<string, string>

  datatype EnvValue = Literal(text: string) | Number(number: int) | FromSecret(ref: SecretRef) | FromField(path: string)
  datatype EnvVar = EnvVar(name: string, value: EnvValue)
  datatype Protocol = Udp | Tcp
  datatype NamedPort = NamedPort(name: string, number: int, protocol: Protocol)
  datatype Mount = Mount(name: string, path: string, readOnly: bool)
  datatype Volume = ClaimVolume(name: string, claim: string) | SecretVolume(name: string, secret: string)
  datatype Probe = Probe(path: string, port: int, initialDelay: int, period: int, failures: int, successes: int)

  datatype Container = Container(
    name: string, image: string, pullPolicy: string, env: seq<EnvVar>, ports: seq<NamedPort>,
    resources: Resources, mounts: seq<Mount>, probe: Option<Probe>)

  datatype Template = Template(
    labels: Labels, annotations: map<string, Digest>, serviceAccount: string, runAs: int,
    containers: seq<Container>, volumes: seq<Volume>)

  /** What the StatefulSet controller reports. */
  datatype Rollout = Rollout(ready: nat, currentRevision: string, updateRevision: string)

  datatype StatefulSet = StatefulSet(
    serviceName: string, selector: Labels, replicas: nat, template: Template, rollout: Rollout)

  datatype Service = Service(kind: string, selector: Labels, ports: seq<NamedPort>)
  datatype PolicyPort = PolicyPort(number: int, protocol: Protocol)
  datatype NetworkPolicy = NetworkPolicy(selector: Labels, ingress: seq<seq<PolicyPort>>, gameEgress: seq<PolicyPort>)

  /** A claim marked `terminating` has been deleted and disappears once no pod uses it. */
  datatype Claim = Claim(labels: Labels, size: int, className: Option<string>, terminating: bool)

  const GAME := "enshrouded-server"
  const HASH_ANNOTATION := "enshrouded.enshrouded.io/password-secret-hash"
  const TEN_GIB: int := 10 * 1024 * 1024 * 1024

  function LabelsOf(name: string): Labels {
    map["app.kubernetes.io/name" := "enshrouded-server",
        "app.kubernetes.io/instance" := name,
        "app.kubernetes.io/managed-by" := "enshrouded-operator"]
  }

  function ClaimName(name: string): string { name + "-savegame" }

  // ------------------------------------------------------------ StatefulSet

  function ImageOf(s: Spec): string {
    (if s.image.repository == "" then "ghcr.io/payback159/enshrouded-server" else s.image.repository)
    + ":" + (if s.image.tag == "" then "latest" else s.image.tag)
  }

  function PullPolicyOf(s: Spec): string {
    if s.image.pullPolicy == "" then "IfNotPresent" else s.image.pullPolicy
  }

  function MetricsPortOf(s: Spec): int {
    if s.sidecar.metricsPort == 0 then 9090 else s.sidecar.metricsPort
  }

  function GameEnv(s: Spec): seq<EnvVar> {
    if s.groups != [] then
      [EnvVar("EXTERNAL_CONFIG", Literal("1")), EnvVar("ENSHROUDED_CONFIG", Literal("/config" + "/" + CONFIG_KEY))]
    else
      [EnvVar("SERVER_NAME", Literal(ServerNameOf(s))), EnvVar("PORT", Number(PortOf(s))),
       EnvVar("SERVER_SLOTS", Number(SlotsOf(s))), EnvVar("SERVER_IP", Literal(IpOf(s)))]
      + if s.password.Some? then [EnvVar("SERVER_PASSWORD", FromSecret(s.password.value))] else []
  }

  function GamePorts(s: Spec): seq<NamedPort> {
    [NamedPort("query", PortOf(s), Udp), NamedPort("steam", SteamPortOf(s), Udp)]
  }

  function GameContainer(s: Spec): Container {
    Container(
      GAME, ImageOf(s), PullPolicyOf(s), GameEnv(s), GamePorts(s), s.resources,
      [Mount("savegame", "/home/steam/enshrouded/savegame", false)]
        + (if s.groups != [] then [Mount("server-config", "/config", true)] else []),
      if s.sidecar.enabled then Some(Probe("/readyz", MetricsPortOf(s), 60, 15, 3, 1)) else None)
  }

  function SidecarContainer(name: string, s: Spec): Container {
    Container(
      "metrics-sidecar",
      if s.sidecar.image == "" then "ghcr.io/payback159/enshrouded-metrics-sidecar:latest" else s.sidecar.image,
      "IfNotPresent",
      [EnvVar("QUERY_HOST", Literal("127.0.0.1")), EnvVar("QUERY_PORT", Number(PortOf(s))),
       EnvVar("METRICS_ADDR", Number(MetricsPortOf(s))),
       EnvVar("SCRAPE_INTERVAL", Number(if s.sidecar.scrapeSeconds == 0 then 15 else s.sidecar.scrapeSeconds)),
       EnvVar("SERVER_NAMESPACE", FromField("metadata.namespace")), EnvVar("SERVER_NAME", Literal(name))],
      [NamedPort("metrics", MetricsPortOf(s), Tcp)], Resources(map[], map[]), [],
      Some(Probe("/healthz", MetricsPortOf(s), 10, 30, 3, 1)))
  }

  function BuildTemplate(name: string, s: Spec, hash: Option<Digest>): Template {
    Template(
      LabelsOf(name),
      if hash.Some? then map[HASH_ANNOTATION := hash.value] else map[],
      if s.sidecar.enabled then name + "-metrics" else "",
      10000,
      [GameContainer(s)] + (if s.sidecar.enabled then [SidecarContainer(name, s)] else []),
      [ClaimVolume("savegame", ClaimName(name))]
        + (if s.groups != [] then [SecretVolume("server-config", ConfigSecretName(name))] else []))
  }

  function BuildStatefulSet(name: string, s: Spec, hash: Option<Digest>): StatefulSet {
    StatefulSet(name, LabelsOf(name), 1, BuildTemplate(name, s, hash), Rollout(0, "", ""))
  }

  // ------------------------------------------------------------ the other children

  function BuildService(name: string, s: Spec): Service {
    Service("LoadBalancer", LabelsOf(name), GamePorts(s))
  }

  function PolicyPorts(s: Spec): seq<PolicyPort> {
    [PolicyPort(PortOf(s), Udp), PolicyPort(SteamPortOf(s), Udp)]
  }

  function BuildNetworkPolicy(name: string, s: Spec): NetworkPolicy {
    NetworkPolicy(
      LabelsOf(name),
      [PolicyPorts(s)] + (if s.sidecar.enabled then [[PolicyPort(MetricsPortOf(s), Tcp)]] else []),
      PolicyPorts(s))
  }

  function BuildClaim(name: string, s: Spec): Claim {
    Claim(LabelsOf(name), if s.storage.size == 0 then TEN_GIB else s.storage.size, s.storage.className, false)
  }

  // ------------------------------------------------------------ how the children fit together

  predicate Selects(selector: Labels, labels: Labels) {
    forall k :: k in selector ==> k in labels && labels[k] == selector[k]
  }

  /** The container listens on a port of this number and protocol. */
  predicate Exposes(ports: seq<NamedPort>, p: PolicyPort) {
    exists j :: 0 <= j < |ports| && PolicyPort(ports[j].number, ports[j].protocol) == p
  }

  /** Some container of the pod listens on the port. */
  predicate Listens(t: Template, p: PolicyPort) {
    exists i :: 0 <= i < |t.containers| && Exposes(t.containers[i].ports, p)
  }

  /** Some ingress rule lets the port through. */
  predicate LetsIn(policy: NetworkPolicy, p: PolicyPort) {
    exists i :: 0 <= i < |policy.ingress| && p in policy.ingress[i]
  }

  predicate HasVolume(t: Template, name: string) {
    exists i :: 0 <= i < |t.volumes| && t.volumes[i].name == name
  }

  lemma GamePortsAgree(s: Spec, p: PolicyPort)
    ensures Exposes(GamePorts(s), p) <==> p in PolicyPorts(s)
  {
    var ports := GamePorts(s);
    if p in PolicyPorts(s) {
      assert PolicyPort(ports[0].number, ports[0].protocol) == p || PolicyPort(ports[1].number, ports[1].protocol) == p;
    }
  }

  lemma MetricsPortAgrees(n: int, p: PolicyPort)
    ensures Exposes([NamedPort("metrics", n, Tcp)], p) <==> p in [PolicyPort(n, Tcp)]
  {
    var ports := [NamedPort("metrics", n, Tcp)];
    if p == PolicyPort(n, Tcp) {
      assert PolicyPort(ports[0].number, ports[0].protocol) == p;
    }
  }

  /** The network policy lets in exactly what the pod listens on. */
  lemma LetsInWhatListens(name: string, s: Spec, hash: Option<Digest>, p: PolicyPort)
    ensures LetsIn(BuildNetworkPolicy(name, s), p) <==> Listens(BuildTemplate(name, s, hash), p)
  {
    var t, policy := BuildTemplate(name, s, hash), BuildNetworkPolicy(name, s);
    GamePortsAgree(s, p);
    assert t.containers[0].ports == GamePorts(s) && policy.ingress[0] == PolicyPorts(s);
    if s.sidecar.enabled {
      MetricsPortAgrees(MetricsPortOf(s), p);
      assert t.containers[1].ports == [NamedPort("metrics", MetricsPortOf(s), Tcp)];
      assert policy.ingress[1] == [PolicyPort(MetricsPortOf(s), Tcp)];
    }
    if LetsIn(policy, p) {
      var i :| 0 <= i < |policy.ingress| && p in policy.ingress[i];
      assert Exposes(t.containers[i].ports, p);
    }
    if Listens(t, p) {
      var i :| 0 <= i < |t.containers| && Exposes(t.containers[i].ports, p);
      assert p in policy.ingress[i];
    }
  }

  /** Service, network policy and StatefulSet select the pod; the Service forwards exactly the
      game's ports; every mount has its volume; the pod uses the claim, and the config
      Secret if and only if there are user groups. */
  lemma ChildrenFit(name: string, s: Spec, hash: Option<Digest>)
    ensures var sts := BuildStatefulSet(name, s, hash);
      && Selects(sts.selector, sts.template.labels)
      && Selects(BuildService(name, s).selector, sts.template.labels)
      && Selects(BuildNetworkPolicy(name, s).selector, sts.template.labels)
      && Selects(BuildClaim(name, s).labels, sts.template.labels)
      && BuildService(name, s).ports == sts.template.containers[0].ports
    ensures var t := BuildTemplate(name, s, hash);
      && (forall i, j :: 0 <= i < |t.containers| && 0 <= j < |t.containers[i].mounts| ==>
            HasVolume(t, t.containers[i].mounts[j].name))
      && ClaimVolume("savegame", ClaimName(name)) in t.volumes
      && (SecretVolume("server-config", ConfigSecretName(name)) in t.volumes <==> s.groups != [])
  {
    var t := BuildTemplate(name, s, hash);
    assert t.volumes[0] == ClaimVolume("savegame", ClaimName(name));
    assert HasVolume(t, "savegame");
    if s.groups != [] {
      assert t.volumes[1] == SecretVolume("server-config", ConfigSecretName(name));
      assert HasVolume(t, "server-config");
    }
  }

  // ------------------------------------------------------------ as specified

  /** Two servers never share a pod label set, a claim or a config Secret. */
  lemma ServersApart(a: string, b: string)
    ensures Selects(LabelsOf(a), LabelsOf(b)) <==> a == b
    ensures ClaimName(a) == ClaimName(b) <==> a == b
    ensures ConfigSecretName(a) == ConfigSecretName(b) <==> a == b
  {
    if Selects(LabelsOf(a), LabelsOf(b)) {
      assert "app.kubernetes.io/instance" in LabelsOf(a);
    }
    if ClaimName(a) == ClaimName(b) {
      assert |a| == |b| && ClaimName(a)[..|a|] == a && ClaimName(b)[..|b|] == b;
    }
    if ConfigSecretName(a) == ConfigSecretName(b) {
      assert |a| == |b| && ConfigSecretName(a)[..|a|] == a && ConfigSecretName(b)[..|b|] == b;
    }
  }

  /** StatefulSet, Service and network policy of a server select its own pods and no other server's. */
  lemma SelectsOnlyOwn(name: string, s: Spec, hash: Option<Digest>, other: string, t: Spec, mark: Option<Digest>)
    ensures var labels := BuildTemplate(other, t, mark).labels;
      && (Selects(BuildStatefulSet(name, s, hash).selector, labels) <==> name == other)
      && (Selects(BuildService(name, s).selector, labels) <==> name == other)
      && (Selects(BuildNetworkPolicy(name, s).selector, labels) <==> name == other)
    ensures BuildStatefulSet(name, s, hash).serviceName == name
  {
    ServersApart(name, other);
  }

  /** The claim has the size and class asked for; only an unset size becomes ten gibibytes. */
  lemma ClaimAsSpecified(name: string, s: Spec)
    ensures var c := BuildClaim(name, s);
      && c.size == (if s.storage.size == 0 then 10 * 1024 * 1024 * 1024 else s.storage.size)
      && c.className == s.storage.className && !c.terminating
  {
  }

  /** The game container runs the image asked for, with the resources asked for, on the ports asked
      for; the pod has the sidecar, its account and its probes exactly if it is enabled. */
  lemma PodAsSpecified(name: string, s: Spec, hash: Option<Digest>)
    ensures var t := BuildTemplate(name, s, hash);
      var game := t.containers[0];
      && game.name == "enshrouded-server" && game.resources == s.resources
      && game.image == (if s.image.repository == "" then "ghcr.io/payback159/enshrouded-server" else s.image.repository)
                       + ":" + (if s.image.tag == "" then "latest" else s.image.tag)
      && game.pullPolicy == (if s.image.pullPolicy == "" then "IfNotPresent" else s.image.pullPolicy)
      && game.ports == [NamedPort("query", if s.port == 0 then 15637 else s.port, Udp),
                        NamedPort("steam", if s.steamPort == 0 then 27015 else s.steamPort, Udp)]
      && (|t.containers| == 2 <==> s.sidecar.enabled) && (|t.containers| == 1 <==> !s.sidecar.enabled)
      && t.serviceAccount == (if s.sidecar.enabled then name + "-metrics" else "") && t.runAs == 10000
      && (game.probe.Some? <==> s.sidecar.enabled)
      && Mount("savegame", "/home/steam/enshrouded/savegame", false) in game.mounts
      && t.annotations == (if hash.Some? then map["enshrouded.enshrouded.io/password-secret-hash" := hash.value] else map[])
    ensures BuildService(name, s).kind == "LoadBalancer" && BuildStatefulSet(name, s, hash).replicas == 1
  {
    var game := BuildTemplate(name, s, hash).containers[0];
    assert game.mounts[0] == Mount("savegame", "/home/steam/enshrouded/savegame", false);
  }

  /** The game may answer on its own two ports. */
  lemma EgressAsSpecified(name: string, s: Spec, p: PolicyPort)
    ensures p in BuildNetworkPolicy(name, s).gameEgress <==>
      p == PolicyPort(if s.port == 0 then 15637 else s.port, Udp)
      || p == PolicyPort(if s.steamPort == 0 then 27015 else s.steamPort, Udp)
  {
    var ports := BuildNetworkPolicy(name, s).gameEgress;
    assert ports[0].protocol == Udp && ports[1].protocol == Udp;
  }

  /** The sidecar queries the game where it listens, and is asked for metrics where it listens itself. */
  lemma SidecarAsSpecified(name: string, s: Spec, hash: Option<Digest>)
    requires s.sidecar.enabled
    ensures var t := BuildTemplate(name, s, hash);
      var port := if s.sidecar.metricsPort == 0 then 9090 else s.sidecar.metricsPort;
      && t.containers[1].name == "metrics-sidecar" && t.containers[1].ports == [NamedPort("metrics", port, Tcp)]
      && EnvVar("QUERY_PORT", Number(t.containers[0].ports[0].number)) in t.containers[1].env
      && EnvVar("METRICS_ADDR", Number(port)) in t.containers[1].env
      && EnvVar("SCRAPE_INTERVAL", Number(if s.sidecar.scrapeSeconds == 0 then 15 else s.sidecar.scrapeSeconds)) in t.containers[1].env
      && EnvVar("SERVER_NAME", Literal(name)) in t.containers[1].env
      && t.containers[1].image ==
           (if s.sidecar.image == "" then "ghcr.io/payback159/enshrouded-metrics-sidecar:latest" else s.sidecar.image)
      && t.containers[0].probe == Some(Probe("/readyz", port, 60, 15, 3, 1))
      && t.containers[1].probe == Some(Probe("/healthz", port, 10, 30, 3, 1))
  {
    var env := SidecarContainer(name, s).env;
    assert env[1].name == "QUERY_PORT" && env[2].name == "METRICS_ADDR";
    assert env[3].name == "SCRAPE_INTERVAL" && env[5].name == "SERVER_NAME";
  }

  lemma EnvWithoutGroups(s: Spec)
    requires s.groups == []
    ensures var env := GameEnv(s);
      && |env| == (if s.password.Some? then 5 else 4)
      && env[0] == EnvVar("SERVER_NAME", Literal(ServerNameOf(s))) && env[1] == EnvVar("PORT", Number(PortOf(s)))
      && env[2] == EnvVar("SERVER_SLOTS", Number(SlotsOf(s))) && env[3] == EnvVar("SERVER_IP", Literal(IpOf(s)))
      && (s.password.Some? ==> env[4] == EnvVar("SERVER_PASSWORD", FromSecret(s.password.value)))
  {
  }

  /** Without user groups the game gets its settings by environment variables: the very ones the
      generated file would hold, and the password straight from its Secret. */
  lemma SettingsByEnv(s: Spec, secrets: Secrets)
    requires s.groups == []
    ensures ConfigOf(s, secrets).Some?
    ensures var config, env := ConfigOf(s, secrets).value, GameContainer(s).env;
      && EnvVar("SERVER_NAME", Literal(config.name)) in env && EnvVar("PORT", Number(config.queryPort)) in env
      && EnvVar("SERVER_SLOTS", Number(config.slotCount)) in env && EnvVar("SERVER_IP", Literal(config.ip)) in env
      && (s.password.Some? ==> EnvVar("SERVER_PASSWORD", FromSecret(s.password.value)) in env)
      && |env| == (if s.password.Some? then 5 else 4)
      && config.queryPort == GameContainer(s).ports[0].number
  {
    EnvWithoutGroups(s);
  }

  /** With user groups it is told the path of a file, which is where the config Secret is mounted. */
  lemma SettingsByFile(s: Spec, secrets: Secrets)
    requires s.groups != []
    ensures GameContainer(s).env == [EnvVar("EXTERNAL_CONFIG", Literal("1")),
                                     EnvVar("ENSHROUDED_CONFIG", Literal("/config" + "/" + CONFIG_KEY))]
    ensures Mount("server-config", "/config", true) in GameContainer(s).mounts
    ensures ConfigOf(s, secrets).Some? ==> ConfigOf(s, secrets).value.queryPort == GameContainer(s).ports[0].number
  {
    assert GameContainer(s).mounts[1] == Mount("server-config", "/config", true);
  }
}
