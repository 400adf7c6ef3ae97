/** Resolution of the kubeconfig identity shown to callers (`get_identity`). */
module Client {
  import opened Wrappers
  import opened Upstream

  /** Python truthiness of an optional string: present and not empty. */
  predicate IsSet(s: Option<string>) {
    s.Some? && s.value != ""
  }

  /** `ctx.get("name") == name`: an entry without a name matches no name. */
  predicate Names(entry: ContextEntry, name: string) {
    entry.name == Some(name)
  }

  /** `not ctx`: the entry is an empty dict. */
  predicate IsEmptyEntry(entry: ContextEntry) {
    entry.name.None? && entry.context.None? && entry.otherKeys == 0
  }

  /** The index of the first entry named `name`, if any. */
  function FirstMatch(contexts: seq<ContextEntry>, name: string): (r: Option<nat>)
    ensures r.Some? ==> r.value < |contexts| && Names(contexts[r.value], name)
    ensures r.Some? ==> forall j :: 0 <= j < r.value ==> !Names(contexts[j], name)
    ensures r.None? ==> forall j :: 0 <= j < |contexts| ==> !Names(contexts[j], name)
  {
    if contexts == [] then None
    else if Names(contexts[0], name) then Some(0)
    else
      match FirstMatch(contexts[1..], name)
      case None => None
      case Some(k) => Some(k + 1)
  }

  /** The context `get_identity` renders: the first entry with the requested name, else the active one. */
  function SelectContext(requested: Option<string>, contexts: seq<ContextEntry>, active: Option<ContextEntry>)
    : (selected: Option<ContextEntry>)
    ensures forall k :: 0 <= k < |contexts| && IsSet(requested) && Names(contexts[k], requested.value)
              && (forall j :: 0 <= j < k ==> !Names(contexts[j], requested.value))
              ==> selected == Some(contexts[k])
    ensures (!IsSet(requested) || forall j :: 0 <= j < |contexts| ==> !Names(contexts[j], requested.value))
              ==> selected == active
  {
    if IsSet(requested) then
      match FirstMatch(contexts, requested.value)
      case Some(k) => Some(contexts[k])
      case None => active
    else active
  }

  /** The scan of the context list, stopping at the first entry with the requested name. */
  method ScanContexts(requested: Option<string>, contexts: seq<ContextEntry>, active: Option<ContextEntry>)
    returns (selected: Option<ContextEntry>)
    ensures selected == SelectContext(requested, contexts, active)
  {
    selected := active;
    if IsSet(requested) {
      var i := 0;
      while i < |contexts|
        invariant 0 <= i <= |contexts|
        invariant selected == active
        invariant forall j :: 0 <= j < i ==> !Names(contexts[j], requested.value)
      {
        if contexts[i].name == Some(requested.value) {
          selected := Some(contexts[i]);
          break;
        }
        i := i + 1;
      }
    }
  }

  /** `active_context.get("name", "n/a")`. */
  function ContextName(entry: ContextEntry): string {
    entry.name.GetOr("n/a")
  }

  /** `active_context.get("context", {}).get("user", "n/a")`. */
  function UserName(entry: ContextEntry): string {
    match entry.context
    case None => "n/a"
    case Some(info) => info.user.GetOr("n/a")
  }

  /** The one shape of every identity line. */
  function IdentityLine(name: string, user: string): string {
    "context=" + name + ", user=" + user
  }

  const NoIdentity: string := "context=n/a, user=n/a"

  /** The identity line for the selected context. */
  function RenderIdentity(selected: Option<ContextEntry>): (s: string)
    ensures selected.None? ==> s == NoIdentity
    ensures selected.Some? ==> s == IdentityLine(ContextName(selected.value), UserName(selected.value))
  {
    if selected.None? || IsEmptyEntry(selected.value) then NoIdentity
    else IdentityLine(ContextName(selected.value), UserName(selected.value))
  }

  /** The identity line when the kubeconfig cannot be read. */
  function UnknownIdentity(requested: Option<string>): string {
    IdentityLine(if IsSet(requested) then requested.value else "unknown", "unknown")
  }

  /**
   * What `get_identity(requested)` returns, or the exception it lets through; only
   * a ConfigException is swallowed.
   */
  function Identity(kubeconfig: Kubeconfig, requested: Option<string>): Result<string, Fault> {
    match kubeconfig
    case Contexts(contexts, active) => Success(RenderIdentity(SelectContext(requested, contexts, active)))
    case ReadFailed(fault) =>
      if fault.ConfigFault? then Success(UnknownIdentity(requested)) else Failure(fault)
  }

  /** `get_identity`. */
  method GetIdentity(kubeconfig: Kubeconfig, requested: Option<string> := None) returns (r: Result<string, Fault>)
    ensures r == Identity(kubeconfig, requested)
  {
    match kubeconfig
    case ReadFailed(fault) =>
      if fault.ConfigFault? {
        r := Success(UnknownIdentity(requested));
      } else {
        r := Failure(fault);
      }
    case Contexts(contexts, active) =>
      var selected := ScanContexts(requested, contexts, active);
      r := Success(RenderIdentity(selected));
  }

  /** A requested, non-empty name that some entry carries selects the first such entry. */
  lemma IdentityOfRequestedContext(contexts: seq<ContextEntry>, active: Option<ContextEntry>, requested: string, k: nat)
    requires requested != ""
    requires k < |contexts| && Names(contexts[k], requested)
    requires forall j :: 0 <= j < k ==> !Names(contexts[j], requested)
    ensures Identity(Contexts(contexts, active), Some(requested))
         == Success("context=" + requested + ", user=" + UserName(contexts[k]))
  {
  }

  /** With no name requested, an empty one, or one no entry carries, the active context is rendered. */
  lemma IdentityOfActiveContext(contexts: seq<ContextEntry>, active: Option<ContextEntry>, requested: Option<string>)
    requires !IsSet(requested) || forall j :: 0 <= j < |contexts| ==> !Names(contexts[j], requested.value)
    ensures Identity(Contexts(contexts, active), requested) == Success(RenderIdentity(active))
    ensures (active.None? || IsEmptyEntry(active.value))
              ==> Identity(Contexts(contexts, active), requested) == Success("context=n/a, user=n/a")
  {
  }

  /** Every identity line `get_identity` returns reads `context=<name>, user=<user>`. */
  lemma IdentityShape(kubeconfig: Kubeconfig, requested: Option<string>)
    requires Identity(kubeconfig, requested).Success?
    ensures exists name: string, user: string :: Identity(kubeconfig, requested).value == IdentityLine(name, user)
  {
    match kubeconfig
    case Contexts(contexts, active) =>
      var selected := SelectContext(requested, contexts, active);
      if selected.None? {
        assert Identity(kubeconfig, requested).value == IdentityLine("n/a", "n/a");
      } else {
        assert Identity(kubeconfig, requested).value
            == IdentityLine(ContextName(selected.value), UserName(selected.value));
      }
    case ReadFailed(fault) =>
      assert Identity(kubeconfig, requested).value
          == IdentityLine(if IsSet(requested) then requested.value else "unknown", "unknown");
  }

  /** A ConfigException while reading the kubeconfig is swallowed into a fixed line. */
  lemma IdentityOnConfigError(text: string, requested: Option<string>)
    ensures Identity(ReadFailed(ConfigFault(text)), requested)
         == Success("context=" + (if IsSet(requested) then requested.value else "unknown") + ", user=unknown")
  {
    var name := if IsSet(requested) then requested.value else "unknown";
    calc {
      IdentityLine(name, "unknown");
      ("context=" + name) + (", user=" + "unknown");
      { assert ", user=" + "unknown" == ", user=unknown"; }
      "context=" + name + ", user=unknown";
    }
  }

  /** Any other exception while reading the kubeconfig propagates to the caller. */
  lemma IdentityPropagatesOtherFaults(fault: Fault, requested: Option<string>)
    requires !fault.ConfigFault?
    ensures Identity(ReadFailed(fault), requested) == Failure(fault)
  {
  }

  /** The identity of a kubeconfig whose only, active, context is `kind`. */
  lemma KindIdentity(kubeconfig: Kubeconfig)
    requires kubeconfig == Contexts([KindAdmin], Some(KindAdmin))
    ensures Identity(kubeconfig, None) == Success("context=kind, user=kind-admin")
  {
    assert IdentityLine("kind", "kind-admin") == "context=kind, user=kind-admin";
  }

  const KindAdmin := ContextEntry(Some("kind"), Some(ContextInfo(Some("kind-admin"))), 1)
}
