/** The generated server configuration, the hash that triggers rolling restarts,
    and the index that maps a changed Secret back to the servers it concerns. */
module Config {
  import opened Api

  datatype ConfigGroup = ConfigGroup(
    name: string, password: Value,
    canKickBan: bool, canAccessInventories: bool, canEditWorld: bool, canEditBase: bool, canExtendBase: bool,
    reservedSlots: int)

  /** The content of the generated JSON file. */
  datatype ServerConfig = ServerConfig(
    name: string, saveDirectory: string, logDirectory: string, ip: string,
    queryPort: int, slotCount: int, groups: seq<ConfigGroup>)

  /** One entry of a Secret: some text, or the JSON text of a configuration.  JSON marshalling is
      symbolic: equal exactly on equal content. */
  datatype Value = Text(text: string) | Json(config: ServerConfig)

  type Data = map<string, Value>

  /** The Secrets of one namespace: name to data. */
  type Secrets = map<string, Data>

  /** SHA-256 over either a password or the JSON text of a configuration, symbolic as well. */
  datatype Digest = PasswordDigest(password: Value) | ConfigDigest(config: ServerConfig)

  const CONFIG_KEY := "enshrouded_server.json"

  /** The Secret a configuration is stored in; it lies among the Secrets of the users. */
  function ConfigSecretName(name: string): string { name + "-config" }

  function Rendered(config: ServerConfig): Data { map[CONFIG_KEY := Json(config)] }

  // ------------------------------------------------------------ effective values

  function ServerNameOf(s: Spec): string { if s.serverName == "" then "Enshrouded Server" else s.serverName }
  function PortOf(s: Spec): int { if s.port == 0 then 15637 else s.port }
  function SteamPortOf(s: Spec): int { if s.steamPort == 0 then 27015 else s.steamPort }
  function SlotsOf(s: Spec): int { if s.slots == 0 then 16 else s.slots }
  function IpOf(s: Spec): string { if s.ip == "" then "0.0.0.0" else s.ip }

  // ------------------------------------------------------------ generated configuration

  /** A group without a reference has no password; a missing key reads as the empty
      password, a missing Secret is an error. */
  function GroupPassword(g: UserGroup, secrets: Secrets): Option<Value> {
    if g.password.None? then Some(Text(""))
    else if g.password.value.name !in secrets then None
    else
      var data := secrets[g.password.value.name];
      Some(if g.password.value.key in data then data[g.password.value.key] else Text(""))
  }

  function Resolved(g: UserGroup, password: Value): ConfigGroup {
    ConfigGroup(g.name, password, g.canKickBan, g.canAccessInventories, g.canEditWorld,
                g.canEditBase, g.canExtendBase, g.reservedSlots)
  }

  predicate Resolvable(groups: seq<UserGroup>, secrets: Secrets) {
    forall k :: 0 <= k < |groups| ==> GroupPassword(groups[k], secrets).Some?
  }

  function ResolvedGroups(groups: seq<UserGroup>, secrets: Secrets): seq<ConfigGroup>
    requires Resolvable(groups, secrets)
  {
    seq(|groups|, k requires 0 <= k < |groups| => Resolved(groups[k], GroupPassword(groups[k], secrets).value))
  }

  function ConfigOf(spec: Spec, secrets: Secrets): Option<ServerConfig> {
    if Resolvable(spec.groups, secrets) then
      Some(ServerConfig(ServerNameOf(spec), "./savegame", "./logs", IpOf(spec), PortOf(spec), SlotsOf(spec),
                        ResolvedGroups(spec.groups, secrets)))
    else
      None
  }

  method BuildServerConfig(spec: Spec, secrets: Secrets) returns (r: Option<ServerConfig>)
    ensures r == ConfigOf(spec, secrets)
  {
    var serverName := spec.serverName;
    if serverName == "" { serverName := "Enshrouded Server"; }
    var port := spec.port;
    if port == 0 { port := 15637; }
    var slots := spec.slots;
    if slots == 0 { slots := 16; }
    var ip := spec.ip;
    if ip == "" { ip := "0.0.0.0"; }

    var groups: seq<ConfigGroup> := [];
    for i := 0 to |spec.groups|
      invariant Resolvable(spec.groups[..i], secrets)
      invariant groups == ResolvedGroups(spec.groups[..i], secrets)
    {
      var g := spec.groups[i];
      var password := Text("");
      if g.password.Some? {
        var ref := g.password.value;
        if ref.name !in secrets {
          assert GroupPassword(spec.groups[i], secrets).None?;
          return None;
        }
        if ref.key in secrets[ref.name] {
          password := secrets[ref.name][ref.key];
        }
      }
      assert spec.groups[..i + 1] == spec.groups[..i] + [g];
      groups := groups + [Resolved(g, password)];
    }
    assert spec.groups[..|spec.groups|] == spec.groups;
    return Some(ServerConfig(serverName, "./savegame", "./logs", ip, port, slots, groups));
  }

  // ------------------------------------------------------------ annotation hash

  /** What a reconcile learns from the Secrets before it touches the StatefulSet. */
  datatype Credentials =
    | Annotated(hash: Option<Digest>)  // None: no password, no annotation
    | Unresolvable                     // a group's Secret is missing: the reconcile fails
    | PasswordMissing                  // the server password is missing: phase Error

  function CredentialsOf(spec: Spec, secrets: Secrets): Credentials {
    if spec.groups != [] then
      match ConfigOf(spec, secrets)
      case Some(c) => Annotated(Some(ConfigDigest(c)))
      case None => Unresolvable
    else if spec.password.None? then
      Annotated(None)
    else if spec.password.value.name in secrets && spec.password.value.key in secrets[spec.password.value.name] then
      Annotated(Some(PasswordDigest(secrets[spec.password.value.name][spec.password.value.key])))
    else
      PasswordMissing
  }

  // ------------------------------------------------------------ Secret index

  function GroupSecrets(groups: seq<UserGroup>): seq<string> {
    if groups == [] then []
    else
      var g := groups[|groups| - 1];
      GroupSecrets(groups[..|groups| - 1]) + if g.password.Some? then [g.password.value.name] else []
  }

  function SecretNames(spec: Spec): seq<string> {
    (if spec.password.Some? then [spec.password.value.name] else []) + GroupSecrets(spec.groups)
  }

  method IndexSecrets(spec: Spec) returns (names: seq<string>)
    ensures names == SecretNames(spec)
  {
    names := [];
    if spec.password.Some? {
      names := names + [spec.password.value.name];
    }
    ghost var own := names;
    for i := 0 to |spec.groups|
      invariant names == own + GroupSecrets(spec.groups[..i])
    {
      assert spec.groups[..i + 1][..i] == spec.groups[..i];
      if spec.groups[i].password.Some? {
        names := names + [spec.groups[i].password.value.name];
      }
    }
    assert spec.groups[..|spec.groups|] == spec.groups;
  }

  lemma {:induction false} GroupIsIndexed(groups: seq<UserGroup>, k: nat)
    requires k < |groups| && groups[k].password.Some?
    ensures groups[k].password.value.name in GroupSecrets(groups)
  {
    if k < |groups| - 1 {
      GroupIsIndexed(groups[..|groups| - 1], k);
    }
  }

  predicate SameSecret(a: Secrets, b: Secrets, name: string) {
    (name in a <==> name in b) && (name in a ==> a[name] == b[name])
  }

  /** Only indexed Secrets matter: stores that agree on a server's index entry give it the
      same configuration, the same annotation hash and the same error outcome. */
  lemma OnlyIndexedSecretsMatter(spec: Spec, a: Secrets, b: Secrets)
    requires forall n :: n in SecretNames(spec) ==> SameSecret(a, b, n)
    ensures ConfigOf(spec, a) == ConfigOf(spec, b)
    ensures CredentialsOf(spec, a) == CredentialsOf(spec, b)
  {
    forall k | 0 <= k < |spec.groups|
      ensures GroupPassword(spec.groups[k], a) == GroupPassword(spec.groups[k], b)
    {
      if spec.groups[k].password.Some? {
        GroupIsIndexed(spec.groups, k);
        assert spec.groups[k].password.value.name in SecretNames(spec);
      }
    }
    if Resolvable(spec.groups, a) {
      assert ResolvedGroups(spec.groups, a) == ResolvedGroups(spec.groups, b);
    }
    if spec.password.Some? {
      assert SecretNames(spec)[0] == spec.password.value.name;
      assert SameSecret(a, b, spec.password.value.name);
    }
  }

  // ------------------------------------------------------------ wake-ups

  datatype ServerKey = ServerKey(namespace: string, name: string)
  datatype ServerEntry = ServerEntry(key: ServerKey, spec: Spec)

  /** Secrets of the whole cluster, by namespace. */
  type ClusterSecrets = map<string, Secrets>

  function SecretsIn(all: ClusterSecrets, namespace: string): Secrets {
    if namespace in all then all[namespace] else map[]
  }

  /** The servers enqueued for a changed Secret; a failing list enqueues nobody. */
  method FindServersForSecret(servers: seq<ServerEntry>, namespace: string, secret: string, listFails: bool)
    returns (requests: seq<ServerKey>)
    ensures listFails ==> requests == []
    ensures !listFails ==> forall k :: k in requests <==>
      exists i :: 0 <= i < |servers| && servers[i].key == k &&
                  k.namespace == namespace && secret in SecretNames(servers[i].spec)
  {
    requests := [];
    if listFails {
      return;
    }
    for i := 0 to |servers|
      invariant forall k :: k in requests <==>
        exists j :: 0 <= j < i && servers[j].key == k &&
                    k.namespace == namespace && secret in SecretNames(servers[j].spec)
    {
      var names := IndexSecrets(servers[i].spec);
      if servers[i].key.namespace == namespace && secret in names {
        requests := requests + [servers[i].key];
      }
    }
  }

  /** No missed wake-up: a change of one Secret that alters what some server's reconcile
      would learn from the Secrets is a change of a Secret in that server's own
      namespace and index, so the server is among those found for it. */
  lemma SecretChangeFindsServer(entry: ServerEntry, namespace: string, secret: string,
                                before: ClusterSecrets, after: ClusterSecrets)
    requires forall ns, n :: (ns, n) != (namespace, secret) ==>
               SameSecret(SecretsIn(before, ns), SecretsIn(after, ns), n)
    requires CredentialsOf(entry.spec, SecretsIn(before, entry.key.namespace)) !=
             CredentialsOf(entry.spec, SecretsIn(after, entry.key.namespace))
    ensures entry.key.namespace == namespace && secret in SecretNames(entry.spec)
  {
    var a, b := SecretsIn(before, entry.key.namespace), SecretsIn(after, entry.key.namespace);
    if entry.key.namespace != namespace || secret !in SecretNames(entry.spec) {
      OnlyIndexedSecretsMatter(entry.spec, a, b);
      assert false;
    }
  }

  // ------------------------------------------------------------ what is in the index and the configuration

  lemma {:induction false} GroupIndexedIff(groups: seq<UserGroup>, n: string)
    ensures n in GroupSecrets(groups) <==>
      exists k :: 0 <= k < |groups| && groups[k].password.Some? && groups[k].password.value.name == n
  {
    if groups != [] {
      var init := groups[..|groups| - 1];
      GroupIndexedIff(init, n);
      assert forall k :: 0 <= k < |init| ==> init[k] == groups[k];
    }
  }

  /** The index entry of a server names exactly the Secrets its spec refers to. */
  lemma IndexedIff(spec: Spec, n: string)
    ensures n in SecretNames(spec) <==>
      || (spec.password.Some? && spec.password.value.name == n)
      || exists k :: 0 <= k < |spec.groups| && spec.groups[k].password.Some? && spec.groups[k].password.value.name == n
  {
    GroupIndexedIff(spec.groups, n);
  }

  /** The generated configuration: each entry from the field of the spec it is for, each group with
      its own rights and the password its reference leads to. */
  lemma ConfigTells(spec: Spec, secrets: Secrets)
    requires ConfigOf(spec, secrets).Some?
    ensures var c := ConfigOf(spec, secrets).value;
      && c.name == (if spec.serverName == "" then "Enshrouded Server" else spec.serverName)
      && c.queryPort == (if spec.port == 0 then 15637 else spec.port)
      && c.slotCount == (if spec.slots == 0 then 16 else spec.slots)
      && c.ip == (if spec.ip == "" then "0.0.0.0" else spec.ip)
      && c.saveDirectory == "./savegame" && c.logDirectory == "./logs"
      && |c.groups| == |spec.groups|
      && forall k :: 0 <= k < |spec.groups| ==>
           var g, r := spec.groups[k], c.groups[k];
           && r.name == g.name && r.reservedSlots == g.reservedSlots && r.canKickBan == g.canKickBan
           && r.canAccessInventories == g.canAccessInventories && r.canEditWorld == g.canEditWorld
           && r.canEditBase == g.canEditBase && r.canExtendBase == g.canExtendBase
           && r.password == PasswordFor(g.password, secrets)
  {
  }

  /** The value behind a reference; nothing and a missing key read as empty. */
  function PasswordFor(ref: Option<SecretRef>, secrets: Secrets): Value {
    if ref.Some? && ref.value.name in secrets && ref.value.key in secrets[ref.value.name]
    then secrets[ref.value.name][ref.value.key] else Text("")
  }

  /** What a reconcile learns: with user groups it fails exactly if some Secret is missing; without,
      it reports a missing password exactly if the Secret or the key is. */
  lemma CredentialsTell(spec: Spec, secrets: Secrets)
    ensures var c := CredentialsOf(spec, secrets);
      if spec.groups != [] then
        && (c.Unresolvable? <==>
              exists k :: 0 <= k < |spec.groups| && spec.groups[k].password.Some? && spec.groups[k].password.value.name !in secrets)
        && !c.PasswordMissing? && (c.Annotated? ==> c.hash.Some? && c.hash.value.ConfigDigest?)
      else
        && !c.Unresolvable?
        && (c.PasswordMissing? <==>
              && spec.password.Some?
              && (spec.password.value.name in secrets ==> spec.password.value.key !in secrets[spec.password.value.name]))
        && (c.Annotated? ==> c.hash == if spec.password.None? then None
                                       else Some(PasswordDigest(PasswordFor(spec.password, secrets))))
  {
  }
}
