/** The in-memory kubeconfig editing engine of kontext: switching and
    deleting contexts (with pruning of clusters and credentials that are no
    longer referenced), reading and setting a context's namespace, and the
    validation and offline fallback of namespace listing.

    Every operation of the program loads the document, checks it, changes
    it in memory and writes it back. Loading and saving are file I/O through
    a foreign library; here a `Config` object stands for the loaded document,
    its state when a method starts is "the document before" and its state
    when the method returns is "the document written back". On every error
    path the source returns before writing, so the document stays as it was. */
module Kubeconfig {

  /** A named context: the cluster and credentials it uses and its
      namespace, where "" means "default". */
  datatype Context = Context(cluster: string, authInfo: string, namespace: string)

  /** Cluster and credential entries: payloads this model only stores and
      compares. */
  datatype Cluster = Cluster(server: string)
  datatype AuthInfo = AuthInfo(token: string)

  /** The whole kubeconfig document, as a value. */
  datatype Document = Document(
    currentContext: string,
    contexts: map<string, Context>,
    clusters: map<string, Cluster>,
    authInfos: map<string, AuthInfo>)

  /** The errors the operations report. */
  datatype Error =
    | ContextNotFound(name: string)        // the named context is not in the document
    | NoCurrentContext                     // the current context is unset ("")
    | CurrentContextMissing(name: string)  // the current context names no context

  datatype Result<T> = Ok(value: T) | Err(error: Error)

  /** What a state-changing operation returns: nil or an error. */
  datatype Outcome = Pass | Fail(error: Error)

  /** What the live cluster yields when asked for its namespaces: one of the
      three failure points of the connection (client configuration, client
      construction, the listing call), or the listed names. */
  datatype ClusterAccess = ConfigFailed | ClientFailed | ListFailed | Listed(names: seq<string>)

  /** The namespace shown for a context whose namespace field is empty. */
  const DefaultNamespace: string := "default"

  /** The namespaces offered when the cluster cannot be reached. */
  const FallbackNamespaces: seq<string> := ["default", "kube-system", "kube-public", "kube-node-lease"]

  /** The file the kubeconfig lives in: the KUBECONFIG value if it is
      non-empty, otherwise `.kube/config` under HOME. Path joining adds one
      separator between HOME and `.kube/config` unless HOME is empty or
      already ends in one. */
  function KubeConfigPath(kubeconfigEnv: string, home: string): (path: string)
    ensures path != ""
    ensures kubeconfigEnv != "" ==> path == kubeconfigEnv
    ensures kubeconfigEnv == "" && home != "" && home[|home| - 1] != '/' ==>
      path == home + "/.kube/config"
    ensures kubeconfigEnv == "" && (home == "" || home[|home| - 1] == '/') ==>
      path == home + ".kube/config"
  {
    if kubeconfigEnv != "" then kubeconfigEnv
    else if home == "" then ".kube/config"
    else if home[|home| - 1] == '/' then home + ".kube/config"
    else home + "/.kube/config"
  }

  // ---------------------------------------------------------------------
  // Pure lookups

  /** The namespace field as the program shows it. */
  function ShownNamespace(field: string): (shown: string)
    ensures shown != ""
    ensures field != "" ==> shown == field
    ensures field == "" ==> shown == DefaultNamespace
  {
    if field == "" then DefaultNamespace else field
  }

  /** GetNamespaceForContext: the namespace of the named context, "default"
      when its field is empty; fails when there is no such context. */
  function GetNamespaceForContext(d: Document, name: string): (r: Result<string>)
    ensures r.Ok? <==> name in d.contexts
    ensures r.Err? ==> r.error == ContextNotFound(name)
    ensures r.Ok? ==> r.value != ""
    ensures r.Ok? ==> r.value == d.contexts[name].namespace
                      || (d.contexts[name].namespace == "" && r.value == DefaultNamespace)
  {
    if name !in d.contexts then Err(ContextNotFound(name))
    else Ok(ShownNamespace(d.contexts[name].namespace))
  }

  /** GetCurrentNamespace: as GetNamespaceForContext for the current
      context, with its own errors for an unset or dangling current context. */
  function GetCurrentNamespace(d: Document): (r: Result<string>)
    ensures d.currentContext == "" ==> r == Err(NoCurrentContext)
    ensures d.currentContext != "" && d.currentContext !in d.contexts ==>
      r == Err(CurrentContextMissing(d.currentContext))
    ensures d.currentContext != "" && d.currentContext in d.contexts ==>
      r == GetNamespaceForContext(d, d.currentContext)
  {
    var current := d.currentContext;
    if current == "" then Err(NoCurrentContext)
    else if current !in d.contexts then Err(CurrentContextMissing(current))
    else Ok(ShownNamespace(d.contexts[current].namespace))
  }

  /** The context an operation acts on: `name`, or the current context when
      `name` is empty; it must be set and must name a context. */
  function ResolveContext(d: Document, name: string): (r: Result<string>)
    ensures r.Ok? ==> r.value != "" && r.value in d.contexts
    ensures r.Ok? && name != "" ==> r.value == name
    ensures r.Ok? && name == "" ==> r.value == d.currentContext
    ensures name != "" ==> (r.Ok? <==> name in d.contexts)
    ensures name == "" ==> (r.Ok? <==> d.currentContext != "" && d.currentContext in d.contexts)
    ensures r.Err? && name == "" && d.currentContext == "" ==> r.error == NoCurrentContext
    ensures r.Err? && name == "" && d.currentContext != "" ==> r.error == ContextNotFound(d.currentContext)
    ensures r.Err? && name != "" ==> r.error == ContextNotFound(name)
  {
    var target := if name == "" then d.currentContext else name;
    if target == "" then Err(NoCurrentContext)
    else if target !in d.contexts then Err(ContextNotFound(target))
    else Ok(target)
  }

  /** GetNamespacesForContext: after the same validation as
      SetNamespaceForContext, the names the cluster lists, or the fallback
      list whenever the cluster cannot be reached. A cluster failure is never
      reported as an error. */
  function GetNamespacesForContext(d: Document, name: string, access: ClusterAccess): (r: Result<seq<string>>)
    ensures r.Err? <==> ResolveContext(d, name).Err?
    ensures r.Err? ==> r.error == ResolveContext(d, name).error
    ensures r.Ok? && access.Listed? ==> r.value == access.names
    ensures r.Ok? && !access.Listed? ==> r.value == FallbackNamespaces
  {
    match ResolveContext(d, name)
    case Err(e) => Err(e)
    case Ok(_) =>
      match access
      case ConfigFailed => Ok(FallbackNamespaces)
      case ClientFailed => Ok(FallbackNamespaces)
      case ListFailed => Ok(FallbackNamespaces)
      case Listed(names) => Ok(names)
  }

  /** GetNamespaces: GetNamespacesForContext for the current context. */
  function GetNamespaces(d: Document, access: ClusterAccess): (r: Result<seq<string>>)
    ensures r.Err? <==> (d.currentContext == "" || d.currentContext !in d.contexts)
    ensures r == GetNamespacesForContext(d, "", access)
  {
    GetNamespacesForContext(d, "", access)
  }

  // ---------------------------------------------------------------------
  // The edits, as functions from the document before to the document after

  /** Some remaining context uses the cluster `name`; "" is never in use. */
  predicate ClusterReferenced(contexts: map<string, Context>, name: string)
  {
    name != "" && exists c :: c in contexts && contexts[c].cluster == name
  }

  /** Some remaining context uses the credentials `name`; "" is never in use. */
  predicate AuthInfoReferenced(contexts: map<string, Context>, name: string)
  {
    name != "" && exists c :: c in contexts && contexts[c].authInfo == name
  }

  /** SwitchContext: make `name` the current context. */
  function Switched(d: Document, name: string): (r: Result<Document>)
    ensures r.Ok? <==> name in d.contexts
    ensures r.Err? ==> r.error == ContextNotFound(name)
    ensures r.Ok? ==> r.value.currentContext == name
    ensures r.Ok? ==> r.value.contexts == d.contexts && r.value.clusters == d.clusters
                      && r.value.authInfos == d.authInfos
    ensures name == d.currentContext && name in d.contexts ==> r == Ok(d)
  {
    if name !in d.contexts then Err(ContextNotFound(name))
    else Ok(d.(currentContext := name))
  }

  /** DeleteContext: remove the context `name`, unset the current context
      if it was `name`, and remove the cluster and the credentials `name`
      used when no remaining context uses them. */
  function Deleted(d: Document, name: string): (r: Result<Document>)
    ensures r.Ok? <==> name in d.contexts
    ensures r.Err? ==> r.error == ContextNotFound(name)
    // the context itself, and nothing else of the contexts
    ensures r.Ok? ==> r.value.contexts.Keys == d.contexts.Keys - {name}
    ensures r.Ok? ==> forall c :: c in r.value.contexts ==> r.value.contexts[c] == d.contexts[c]
    // the current context
    ensures r.Ok? && d.currentContext == name ==> r.value.currentContext == ""
    ensures r.Ok? && d.currentContext != name ==> r.value.currentContext == d.currentContext
    // clusters: at most the deleted context's cluster goes, exactly when unused
    ensures r.Ok? ==> r.value.clusters.Keys <= d.clusters.Keys
    ensures r.Ok? ==> forall k :: k in r.value.clusters ==> r.value.clusters[k] == d.clusters[k]
    ensures r.Ok? ==> forall k :: k in d.clusters && k != d.contexts[name].cluster ==> k in r.value.clusters
    ensures r.Ok? ==> var k := d.contexts[name].cluster;
      k in d.clusters ==> (k !in r.value.clusters <==> k != "" && !ClusterReferenced(r.value.contexts, k))
    // credentials: likewise
    ensures r.Ok? ==> r.value.authInfos.Keys <= d.authInfos.Keys
    ensures r.Ok? ==> forall k :: k in r.value.authInfos ==> r.value.authInfos[k] == d.authInfos[k]
    ensures r.Ok? ==> forall k :: k in d.authInfos && k != d.contexts[name].authInfo ==> k in r.value.authInfos
    ensures r.Ok? ==> var k := d.contexts[name].authInfo;
      k in d.authInfos ==> (k !in r.value.authInfos <==> k != "" && !AuthInfoReferenced(r.value.contexts, k))
  {
    if name !in d.contexts then Err(ContextNotFound(name))
    else
      var ctx := d.contexts[name];
      var contexts := d.contexts - {name};
      var current := if d.currentContext == name then "" else d.currentContext;
      var clusters :=
        if ctx.cluster != "" && !ClusterReferenced(contexts, ctx.cluster) then d.clusters - {ctx.cluster}
        else d.clusters;
      var authInfos :=
        if ctx.authInfo != "" && !AuthInfoReferenced(contexts, ctx.authInfo) then d.authInfos - {ctx.authInfo}
        else d.authInfos;
      Ok(Document(current, contexts, clusters, authInfos))
  }

  /** SetNamespaceForContext: overwrite the namespace of the resolved
      context (the current one when `name` is empty) with `ns`. */
  function WithNamespace(d: Document, name: string, ns: string): (r: Result<Document>)
    ensures r.Err? <==> ResolveContext(d, name).Err?
    ensures r.Err? ==> r.error == ResolveContext(d, name).error
    ensures r.Ok? ==>
      var target := ResolveContext(d, name).value;
      && r.value.currentContext == d.currentContext
      && r.value.clusters == d.clusters
      && r.value.authInfos == d.authInfos
      && r.value.contexts.Keys == d.contexts.Keys
      && r.value.contexts[target].namespace == ns
      && r.value.contexts[target].cluster == d.contexts[target].cluster
      && r.value.contexts[target].authInfo == d.contexts[target].authInfo
      && (forall c :: c in d.contexts && c != target ==> r.value.contexts[c] == d.contexts[c])
  {
    match ResolveContext(d, name)
    case Err(e) => Err(e)
    case Ok(target) =>
      var ctx := d.contexts[target];
      Ok(d.(contexts := d.contexts[target := ctx.(namespace := ns)]))
  }

  // ---------------------------------------------------------------------
  // Consistency of a document

  /** The current context is unset or names a context, and every non-empty
      cluster or credential reference of a context resolves. */
  predicate WellFormed(d: Document)
  {
    && (d.currentContext == "" || d.currentContext in d.contexts)
    && (forall c :: c in d.contexts && d.contexts[c].cluster != "" ==> d.contexts[c].cluster in d.clusters)
    && (forall c :: c in d.contexts && d.contexts[c].authInfo != "" ==> d.contexts[c].authInfo in d.authInfos)
  }

  lemma SwitchedPreservesWellFormed(d: Document, name: string)
    requires WellFormed(d) && Switched(d, name).Ok?
    ensures WellFormed(Switched(d, name).value)
  {
  }

  lemma WithNamespacePreservesWellFormed(d: Document, name: string, ns: string)
    requires WellFormed(d) && WithNamespace(d, name, ns).Ok?
    ensures WellFormed(WithNamespace(d, name, ns).value)
  {
    var e := WithNamespace(d, name, ns).value;
    var target := ResolveContext(d, name).value;
    forall c | c in e.contexts
      ensures e.contexts[c].cluster == d.contexts[c].cluster
      ensures e.contexts[c].authInfo == d.contexts[c].authInfo
    {
      if c != target {
        assert e.contexts[c] == d.contexts[c];
      }
    }
  }

  /** Deletion keeps a well-formed document well-formed: it never leaves
      the current context naming the deleted context, and never removes a
      cluster or credentials that a remaining context still uses. */
  lemma DeletedPreservesWellFormed(d: Document, name: string)
    requires WellFormed(d) && Deleted(d, name).Ok?
    ensures WellFormed(Deleted(d, name).value)
  {
    var e := Deleted(d, name).value;
    forall c | c in e.contexts && e.contexts[c].cluster != ""
      ensures e.contexts[c].cluster in e.clusters
    {
      var k := e.contexts[c].cluster;
      assert e.contexts[c] == d.contexts[c];
      if k == d.contexts[name].cluster {
        assert ClusterReferenced(e.contexts, k);
      }
    }
    forall c | c in e.contexts && e.contexts[c].authInfo != ""
      ensures e.contexts[c].authInfo in e.authInfos
    {
      var k := e.contexts[c].authInfo;
      assert e.contexts[c] == d.contexts[c];
      if k == d.contexts[name].authInfo {
        assert AuthInfoReferenced(e.contexts, k);
      }
    }
  }

  /** Deletion creates no orphans: a cluster or credentials entry that is
      left without a user afterwards had none before either. */
  lemma DeletedLeavesNoNewOrphans(d: Document, name: string, k: string)
    requires Deleted(d, name).Ok?
    ensures k in Deleted(d, name).value.clusters && !ClusterReferenced(Deleted(d, name).value.contexts, k)
            ==> !ClusterReferenced(d.contexts, k)
    ensures k in Deleted(d, name).value.authInfos && !AuthInfoReferenced(Deleted(d, name).value.contexts, k)
            ==> !AuthInfoReferenced(d.contexts, k)
  {
    var e := Deleted(d, name).value;
    if k in e.clusters && ClusterReferenced(d.contexts, k) {
      var c :| c in d.contexts && d.contexts[c].cluster == k;
      if c != name {
        assert e.contexts[c] == d.contexts[c];
      }
    }
    if k in e.authInfos && AuthInfoReferenced(d.contexts, k) {
      var c :| c in d.contexts && d.contexts[c].authInfo == k;
      if c != name {
        assert e.contexts[c] == d.contexts[c];
      }
    }
  }

  /** Setting a namespace and reading it back gives what was set, or
      "default" for the empty string; the current context reads the same
      when it was the one set. */
  lemma SetThenGetNamespace(d: Document, name: string, ns: string)
    requires WithNamespace(d, name, ns).Ok?
    ensures var e := WithNamespace(d, name, ns).value;
      && GetNamespaceForContext(e, ResolveContext(d, name).value) == Ok(ShownNamespace(ns))
      && (name == "" ==> GetCurrentNamespace(e) == Ok(ShownNamespace(ns)))
  {
  }

  /** Namespace listing rejects exactly the context names that setting a
      namespace rejects, with the same error. */
  lemma ListingValidatesLikeSetting(d: Document, name: string, ns: string, access: ClusterAccess)
    ensures GetNamespacesForContext(d, name, access).Err? <==> WithNamespace(d, name, ns).Err?
    ensures GetNamespacesForContext(d, name, access).Err? ==>
      GetNamespacesForContext(d, name, access).error == WithNamespace(d, name, ns).error
  {
  }

  /** Whether an operation's result was committed: on success the document
      after is the new one and nil is returned; on failure the error is
      returned and the document is left as it was. */
  ghost predicate Committed(before: Document, r: Result<Document>, after: Document, outcome: Outcome)
  {
    match r
    case Ok(d) => outcome == Pass && after == d
    case Err(e) => outcome == Fail(e) && after == before
  }

  // ---------------------------------------------------------------------
  // The loaded document, edited in place

  class Config {
    var currentContext: string
    var contexts: map<string, Context>
    var clusters: map<string, Cluster>
    var authInfos: map<string, AuthInfo>

    /** The document as loaded from the kubeconfig file. */
    constructor (d: Document)
      ensures Snapshot() == d
    {
      currentContext := d.currentContext;
      contexts := d.contexts;
      clusters := d.clusters;
      authInfos := d.authInfos;
    }

    /** The document this object holds, as a value. */
    function Snapshot(): Document
      reads this
    {
      Document(currentContext, contexts, clusters, authInfos)
    }

    method SwitchContext(name: string) returns (outcome: Outcome)
      modifies this
      ensures Committed(old(Snapshot()), Switched(old(Snapshot()), name), Snapshot(), outcome)
    {
      if name !in contexts {
        return Fail(ContextNotFound(name));
      }
      currentContext := name;
      return Pass;
    }

    /** The rescan of isClusterReferenced: is `name` the cluster of some
      context? */
    method IsClusterReferenced(name: string) returns (referenced: bool)
      ensures referenced <==> ClusterReferenced(contexts, name)
    {
      if name == "" {
        return false;
      }
      var remaining := contexts.Keys;
      while remaining != {}
        invariant remaining <= contexts.Keys
        invariant forall c :: c in contexts && c !in remaining ==> contexts[c].cluster != name
        decreases remaining
      {
        var c :| c in remaining;
        if contexts[c].cluster == name {
          return true;
        }
        remaining := remaining - {c};
      }
      return false;
    }

    /** The rescan of isAuthInfoReferenced: are `name` the credentials of
      some context? */
    method IsAuthInfoReferenced(name: string) returns (referenced: bool)
      ensures referenced <==> AuthInfoReferenced(contexts, name)
    {
      if name == "" {
        return false;
      }
      var remaining := contexts.Keys;
      while remaining != {}
        invariant remaining <= contexts.Keys
        invariant forall c :: c in contexts && c !in remaining ==> contexts[c].authInfo != name
        decreases remaining
      {
        var c :| c in remaining;
        if contexts[c].authInfo == name {
          return true;
        }
        remaining := remaining - {c};
      }
      return false;
    }

    method DeleteContext(name: string) returns (outcome: Outcome)
      modifies this
      ensures Committed(old(Snapshot()), Deleted(old(Snapshot()), name), Snapshot(), outcome)
    {
      if name !in contexts {
        return Fail(ContextNotFound(name));
      }
      var clusterName := contexts[name].cluster;
      var authInfoName := contexts[name].authInfo;

      contexts := contexts - {name};

      if currentContext == name {
        currentContext := "";
      }

      if clusterName != "" {
        var used := IsClusterReferenced(clusterName);
        if !used {
          clusters := clusters - {clusterName};
        }
      }

      if authInfoName != "" {
        var used := IsAuthInfoReferenced(authInfoName);
        if !used {
          authInfos := authInfos - {authInfoName};
        }
      }
      return Pass;
    }

    method SetNamespaceForContext(name: string, ns: string) returns (outcome: Outcome)
      modifies this
      ensures Committed(old(Snapshot()), WithNamespace(old(Snapshot()), name, ns), Snapshot(), outcome)
    {
      var target := name;
      if target == "" {
        target := currentContext;
        if target == "" {
          return Fail(NoCurrentContext);
        }
      }
      if target !in contexts {
        return Fail(ContextNotFound(target));
      }
      var ctx := contexts[target];
      contexts := contexts[target := ctx.(namespace := ns)];
      return Pass;
    }

    method SetNamespace(ns: string) returns (outcome: Outcome)
      modifies this
      ensures Committed(old(Snapshot()), WithNamespace(old(Snapshot()), "", ns), Snapshot(), outcome)
    {
      outcome := SetNamespaceForContext("", ns);
    }
  }
}
