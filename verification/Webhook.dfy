/** Admission: the defaulting and the validating webhook, and how the defaults
    relate to the controller's own fallbacks for unset fields. */
module Webhook {
  import opened Api
  import opened Config
  import opened Objects

  /** The resource under admission, defaulted in place. */
  class Candidate {
    var spec: Spec

    constructor (spec: Spec)
      ensures this.spec == spec
    {
      this.spec := spec;
    }

    /** Fills every unset field and touches no field that is set. */
    method Default()
      modifies this
      ensures spec == Defaulted(old(spec))
    {
      DefaultText();
      DefaultNumbers();
      DefaultImage();
      DefaultStorage();
    }

    method DefaultText()
      modifies this
      ensures spec == old(spec).(serverName := Or(old(spec).serverName, "", "Enshrouded Server"),
                                 ip := Or(old(spec).ip, "", "0.0.0.0"))
    {
      if spec.serverName == "" { spec := spec.(serverName := "Enshrouded Server"); }
      if spec.ip == "" { spec := spec.(ip := "0.0.0.0"); }
    }

    method DefaultNumbers()
      modifies this
      ensures spec == old(spec).(port := Or(old(spec).port, 0, 15637),
                                 steamPort := Or(old(spec).steamPort, 0, 27015),
                                 slots := Or(old(spec).slots, 0, 16))
    {
      if spec.port == 0 { spec := spec.(port := 15637); }
      if spec.steamPort == 0 { spec := spec.(steamPort := 27015); }
      if spec.slots == 0 { spec := spec.(slots := 16); }
    }

    method DefaultImage()
      modifies this
      ensures spec == old(spec).(image := DefaultedImage(old(spec).image))
    {
      var image := spec.image;
      if image.repository == "" { image := image.(repository := "ghcr.io/payback159/enshrouded-server"); }
      if image.tag == "" { image := image.(tag := "latest"); }
      if image.pullPolicy == "" { image := image.(pullPolicy := "IfNotPresent"); }
      spec := spec.(image := image);
    }

    method DefaultStorage()
      modifies this
      ensures spec == old(spec).(storage := DefaultedStorage(old(spec).storage))
    {
      var storage := spec.storage;
      if storage.size == 0 { storage := storage.(size := TEN_GIB); }
      if storage.retainOnDelete.None? { storage := storage.(retainOnDelete := Some(true)); }
      spec := spec.(storage := storage);
    }
  }

  function Or<T(==)>(value: T, unset: T, fallback: T): T {
    if value == unset then fallback else value
  }

  function DefaultedImage(image: Image): Image {
    Image(Or(image.repository, "", "ghcr.io/payback159/enshrouded-server"),
          Or(image.tag, "", "latest"), Or(image.pullPolicy, "", "IfNotPresent"))
  }

  function DefaultedStorage(storage: Storage): Storage {
    Storage(Or(storage.size, 0, TEN_GIB), storage.className, Or(storage.retainOnDelete, None, Some(true)))
  }

  function Defaulted(s: Spec): Spec {
    s.(serverName := Or(s.serverName, "", "Enshrouded Server"),
       port := Or(s.port, 0, 15637),
       steamPort := Or(s.steamPort, 0, 27015),
       slots := Or(s.slots, 0, 16),
       ip := Or(s.ip, "", "0.0.0.0"),
       image := DefaultedImage(s.image),
       storage := DefaultedStorage(s.storage))
  }

  // ------------------------------------------------------------ validation

  datatype Problem = SamePorts | BadIp | NoSecretName | NoSecretKey | NoRepository | NegativeSize | Shrinks

  predicate BadPorts(s: Spec) { s.port != 0 && s.steamPort != 0 && s.port == s.steamPort }
  predicate BadAddress(s: Spec, isIp: string -> bool) { s.ip != "" && s.ip != "0.0.0.0" && !isIp(s.ip) }

  function PasswordProblems(s: Spec): seq<Problem> {
    if s.password.None? then
      []
    else
      (if s.password.value.name == "" then [NoSecretName] else [])
      + (if s.password.value.key == "" then [NoSecretKey] else [])
  }

  /** Every objection to a spec, in the order they are reported. */
  function Problems(s: Spec, isIp: string -> bool): seq<Problem> {
    (if BadPorts(s) then [SamePorts] else [])
    + (if BadAddress(s, isIp) then [BadIp] else [])
    + PasswordProblems(s)
    + (if s.image.repository == "" then [NoRepository] else [])
    + (if s.storage.size < 0 then [NegativeSize] else [])
  }

  method ValidateServer(s: Spec, isIp: string -> bool) returns (errs: seq<Problem>)
    ensures errs == Problems(s, isIp)
  {
    errs := [];
    if s.port != 0 && s.steamPort != 0 && s.port == s.steamPort {
      errs := errs + [SamePorts];
    }
    if s.ip != "" && s.ip != "0.0.0.0" {
      if !isIp(s.ip) {
        errs := errs + [BadIp];
      }
    }
    assert errs == (if BadPorts(s) then [SamePorts] else []) + (if BadAddress(s, isIp) then [BadIp] else []);
    var password := ValidatePassword(s);
    errs := errs + password;
    if s.image.repository == "" {
      errs := errs + [NoRepository];
    }
    if s.storage.size != 0 && s.storage.size < 0 {
      errs := errs + [NegativeSize];
    }
  }

  method ValidatePassword(s: Spec) returns (errs: seq<Problem>)
    ensures errs == PasswordProblems(s)
  {
    errs := [];
    if s.password.Some? {
      if s.password.value.name == "" {
        errs := errs + [NoSecretName];
      }
      if s.password.value.key == "" {
        errs := errs + [NoSecretKey];
      }
    }
  }

  method ValidateUpdate(was: Spec, s: Spec, isIp: string -> bool) returns (errs: seq<Problem>)
    ensures errs == [] <==> UpdateAllowed(was, s, isIp)
  {
    errs := ValidateServer(s, isIp);
    if errs != [] {
      return;
    }
    if was.storage.size != 0 && s.storage.size < was.storage.size {
      return [Shrinks];
    }
  }

  predicate UpdateAllowed(was: Spec, s: Spec, isIp: string -> bool) {
    Problems(s, isIp) == [] && (was.storage.size != 0 ==> s.storage.size >= was.storage.size)
  }

  // ------------------------------------------------------------ defaults and fallbacks agree

  lemma DefaultedContainers(name: string, s: Spec)
    ensures GameContainer(Defaulted(s)) == GameContainer(s)
    ensures SidecarContainer(name, Defaulted(s)) == SidecarContainer(name, s)
  {
    var d := Defaulted(s);
    assert ImageOf(d) == ImageOf(s) && GameEnv(d) == GameEnv(s);
  }

  /** Defaulting preserves meaning: whatever the controller builds or decides from a spec,
      under any name, Secrets and hash, it builds and decides from the defaulted spec;
      and defaulting again changes nothing. */
  lemma DefaultPreservesMeaning(name: string, s: Spec, hash: Option<Digest>, secrets: Secrets)
    ensures Defaulted(Defaulted(s)) == Defaulted(s)
    ensures BuildStatefulSet(name, Defaulted(s), hash) == BuildStatefulSet(name, s, hash)
    ensures BuildService(name, Defaulted(s)) == BuildService(name, s)
    ensures BuildNetworkPolicy(name, Defaulted(s)) == BuildNetworkPolicy(name, s)
    ensures BuildClaim(name, Defaulted(s)) == BuildClaim(name, s)
    ensures CredentialsOf(Defaulted(s), secrets) == CredentialsOf(s, secrets)
    ensures SecretNames(Defaulted(s)) == SecretNames(s)
    ensures Retains(Defaulted(s)) == Retains(s)
    ensures Defaulted(s).policy == s.policy && Defaulted(s).scaling == s.scaling
  {
    DefaultedContainers(name, s);
    assert ConfigOf(Defaulted(s), secrets) == ConfigOf(s, secrets);
  }

  // ------------------------------------------------------------ chains of admitted writes

  /** A stored history: the first spec was created, each later one updated, all through both webhooks. */
  predicate Admitted(history: seq<Spec>, isIp: string -> bool) {
    && (forall k :: 0 <= k < |history| ==> Defaulted(history[k]) == history[k] && Problems(history[k], isIp) == [])
    && (forall k :: 0 < k < |history| ==> UpdateAllowed(history[k - 1], history[k], isIp))
  }

  lemma AdmittedSpec(s: Spec, isIp: string -> bool)
    requires Defaulted(s) == s && Problems(s, isIp) == []
    ensures s.storage.size > 0
    ensures PortOf(s) != SteamPortOf(s)
    ensures ImageOf(s) == s.image.repository + ":" + s.image.tag
  {
    assert !BadPorts(s);
    assert s.image.repository != "";
    assert !(s.storage.size < 0);
  }

  /** Along every chain of admitted creates and updates the storage size stays positive and
      never shrinks, between any two points, and the two game ports always differ. */
  lemma {:induction false} AdmittedChain(history: seq<Spec>, isIp: string -> bool, i: nat, j: nat)
    requires Admitted(history, isIp) && i <= j < |history|
    ensures 0 < history[i].storage.size <= history[j].storage.size
    ensures PortOf(history[j]) != SteamPortOf(history[j])
    decreases j
  {
    AdmittedSpec(history[i], isIp);
    AdmittedSpec(history[j], isIp);
    if i < j {
      AdmittedChain(history, isIp, i, j - 1);
      assert UpdateAllowed(history[j - 1], history[j], isIp);
    }
  }

  /** The validator alone, without defaulting, does not keep the ports apart: it accepts a
      spec whose effective ports coincide exactly when one port is unset and the other
      repeats the fallback of the unset one. */
  lemma PortsCollideIff(s: Spec)
    ensures (!BadPorts(s) && PortOf(s) == SteamPortOf(s)) <==>
            (s.port == 0 && s.steamPort == 15637) || (s.steamPort == 0 && s.port == 27015)
  {
  }

  // ------------------------------------------------------------ what is accepted and filled in

  /** A spec is accepted exactly if its set ports differ, its address is unset, the wildcard or an
      IP, a password reference names Secret and key, there is an image and the size is not negative. */
  lemma AcceptedIff(s: Spec, isIp: string -> bool)
    ensures Problems(s, isIp) == [] <==>
      && (s.port == 0 || s.steamPort == 0 || s.port != s.steamPort)
      && (s.ip == "" || s.ip == "0.0.0.0" || isIp(s.ip))
      && (s.password.Some? ==> s.password.value.name != "" && s.password.value.key != "")
      && s.image.repository != "" && s.storage.size >= 0
  {
  }

  /** An update is accepted exactly if the new spec is and a set size does not shrink. */
  lemma UpdateAcceptedIff(was: Spec, s: Spec, isIp: string -> bool)
    ensures UpdateAllowed(was, s, isIp) <==>
      Problems(s, isIp) == [] && (was.storage.size == 0 || was.storage.size <= s.storage.size)
  {
  }

  /** Exactly the unset fields are filled, with the documented values. */
  lemma DefaultFills(s: Spec)
    ensures var d := Defaulted(s);
      && d.serverName == (if s.serverName == "" then "Enshrouded Server" else s.serverName)
      && d.port == (if s.port == 0 then 15637 else s.port)
      && d.steamPort == (if s.steamPort == 0 then 27015 else s.steamPort)
      && d.slots == (if s.slots == 0 then 16 else s.slots)
      && d.ip == (if s.ip == "" then "0.0.0.0" else s.ip)
      && d.image == Image(if s.image.repository == "" then "ghcr.io/payback159/enshrouded-server" else s.image.repository,
                          if s.image.tag == "" then "latest" else s.image.tag,
                          if s.image.pullPolicy == "" then "IfNotPresent" else s.image.pullPolicy)
      && d.storage == Storage(if s.storage.size == 0 then 10 * 1024 * 1024 * 1024 else s.storage.size, s.storage.className,
                              if s.storage.retainOnDelete == None then Some(true) else s.storage.retainOnDelete)
      && s == d.(serverName := s.serverName, port := s.port, steamPort := s.steamPort, slots := s.slots, ip := s.ip,
                 image := s.image, storage := s.storage)
  {
  }
}
