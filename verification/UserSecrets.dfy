/** Secrets of the users: which of them the operator writes, and what follows. */
module UserSecrets {
  import opened Api
  import opened Config
  import opened Protocol
  import opened Guarantees
  import opened Convergence
  import opened Liveness

  predicate Touches(a: Action, n: string) {
    a.Disturb? && a.change.SetSecret? && a.change.secret == n
  }

  lemma StepLeavesSecrets(w: World, a: Action, n: string)
    requires n != ConfigSecretName(w.name) && !Touches(a, n)
    ensures SameSecret(w.secrets, Step(w, a).secrets, n)
  {
    match a
    case Operate(call) => if Callable(w, call) { CallLeavesSecrets(w, call, n); } return;
    case SidecarGet(_) => return;
    case SidecarPatch(_) => return;
    case Disturb(change) => return;
  }

  /** In every run: a Secret that does not have the config Secret's name stays as it is unless
      somebody else writes it. */
  lemma {:induction false} RunLeavesSecrets(w: World, actions: seq<Action>, n: string)
    requires n != ConfigSecretName(w.name) && forall a :: a in actions ==> !Touches(a, n)
    ensures SameSecret(w.secrets, Run(w, actions).secrets, n)
  {
    if actions != [] {
      var before := actions[..|actions| - 1];
      RunLeavesSecrets(w, before, n);
      RunKeepsName(w, before);
      StepLeavesSecrets(Run(w, before), actions[|actions| - 1], n);
    }
  }

  /** So a spec that does not refer to that name keeps its configuration and its hash over every
      run in which nobody writes the Secrets it refers to. */
  lemma CredentialsKept(w: World, actions: seq<Action>, spec: Spec)
    requires ConfigSecretName(w.name) !in SecretNames(spec)
    requires forall a, n :: a in actions && n in SecretNames(spec) ==> !Touches(a, n)
    ensures ConfigOf(spec, Run(w, actions).secrets) == ConfigOf(spec, w.secrets)
    ensures CredentialsOf(spec, Run(w, actions).secrets) == CredentialsOf(spec, w.secrets)
  {
    forall n | n in SecretNames(spec) ensures SameSecret(w.secrets, Run(w, actions).secrets, n) {
      RunLeavesSecrets(w, actions, n);
    }
    OnlyIndexedSecretsMatter(spec, w.secrets, Run(w, actions).secrets);
  }

  /** Without user groups the operator clears away whatever has that name before it looks for the
      password: it still finds it if and only if the password is not kept there. */
  lemma PasswordSurvivesIff(name: string, spec: Spec, secrets: Secrets)
    requires CredentialsOf(spec, secrets).Annotated?
    ensures CredentialsOf(spec, ShownFor(name, spec, secrets)).Annotated? <==>
      !(spec.groups == [] && spec.password.Some? && spec.password.value.name == ConfigSecretName(name))
  {
  }

  /** With user groups the operator overwrites it: the configuration read back next time is the
      same if and only if every group that keeps its password there had the value it finds then. */
  lemma ConfigSurvivesIff(name: string, spec: Spec, secrets: Secrets)
    requires ConfigOf(spec, secrets).Some?
    ensures var after := secrets[ConfigSecretName(name) := Rendered(ConfigOf(spec, secrets).value)];
      && ConfigOf(spec, after).Some?
      && (ConfigOf(spec, after) == ConfigOf(spec, secrets) <==>
            forall k :: 0 <= k < |spec.groups| && KeptIn(spec.groups[k], ConfigSecretName(name)) ==>
              GroupPassword(spec.groups[k], after) == GroupPassword(spec.groups[k], secrets))
  {
    var cfg := ConfigSecretName(name);
    var after := secrets[cfg := Rendered(ConfigOf(spec, secrets).value)];
    assert Resolvable(spec.groups, after) by {
      forall k | 0 <= k < |spec.groups| ensures GroupPassword(spec.groups[k], after).Some? {
        assert GroupPassword(spec.groups[k], secrets).Some?;
      }
    }
    forall k | 0 <= k < |spec.groups|
      ensures !KeptIn(spec.groups[k], cfg) ==> GroupPassword(spec.groups[k], after) == GroupPassword(spec.groups[k], secrets)
    {
    }
    var a, b := ResolvedGroups(spec.groups, after), ResolvedGroups(spec.groups, secrets);
    if forall k :: 0 <= k < |spec.groups| && KeptIn(spec.groups[k], cfg) ==>
         GroupPassword(spec.groups[k], after) == GroupPassword(spec.groups[k], secrets) {
      assert a == b;
    }
    if a == b {
      forall k | 0 <= k < |spec.groups| ensures GroupPassword(spec.groups[k], after) == GroupPassword(spec.groups[k], secrets) {
        assert a[k] == b[k];
        assert a[k].password == GroupPassword(spec.groups[k], after).value;
        assert b[k].password == GroupPassword(spec.groups[k], secrets).value;
      }
    }
  }

  predicate KeptIn(g: UserGroup, secret: string) {
    g.password.Some? && g.password.value.name == secret
  }
}
