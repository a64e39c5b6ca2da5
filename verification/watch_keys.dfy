/** Subscription keys of the watch hub and the string identities derived from them. */
module WatchKeys {
  datatype Gvr = Gvr(group: string, version: string, resource: string)

  /** Resource names of the watch endpoint; a name outside the enumeration is Unknown. */
  datatype Resource =
    | Pods | Deployments | StatefulSets | DaemonSets | Services | Ingresses
    | ConfigMaps | Secrets | Events | Nodes | Crds
    | Clusters | Audit | PodLogs
    | Unknown(text: string)

  /** One subscription dimension; ordinary resources, podlogs and audit share the type. */
  datatype SubKey = SubKey(cluster: string, resource: Resource, namespace: string, name: string)

  /** A resource served by an informer, as opposed to clusters, audit, podlogs and unknown names. */
  predicate HasInformer(r: Resource) {
    !r.Clusters? && !r.Audit? && !r.PodLogs? && !r.Unknown?
  }

  predicate Ordinary(key: SubKey) {
    HasInformer(key.resource)
  }

  function ResourceName(r: Resource): string {
    match r
    case Pods => "pods"
    case Deployments => "deployments"
    case StatefulSets => "statefulsets"
    case DaemonSets => "daemonsets"
    case Services => "services"
    case Ingresses => "ingresses"
    case ConfigMaps => "configmaps"
    case Secrets => "secrets"
    case Events => "events"
    case Nodes => "nodes"
    case Crds => "crds"
    case Clusters => "clusters"
    case Audit => "audit"
    case PodLogs => "podlogs"
    case Unknown(text) => text
  }

  function ApiGroup(r: Resource): string {
    match r
    case Deployments => "apps"
    case StatefulSets => "apps"
    case DaemonSets => "apps"
    case Ingresses => "networking.k8s.io"
    case Crds => "apiextensions.k8s.io"
    case _ => ""
  }

  /** builtinResources, on the names the watch endpoint accepts. */
  function GvrOf(r: Resource): Gvr
    requires HasInformer(r)
  {
    Gvr(ApiGroup(r), "v1", if r.Crds? then "customresourcedefinitions" else ResourceName(r))
  }

  function WatchId(key: SubKey): string {
    key.cluster + "|" + ResourceName(key.resource) + "|" + key.namespace + "|" + key.name
  }

  /** GroupVersionResource.String() of the client library. */
  function GvrString(gvr: Gvr): string {
    gvr.group + "/" + gvr.version + ", Resource=" + gvr.resource
  }

  function EntryKey(gvr: Gvr, namespace: string): string {
    GvrString(gvr) + "|" + namespace
  }

  /** The pool entry that serves an ordinary key. */
  function EntryOf(key: SubKey): string
    requires Ordinary(key)
  {
    EntryKey(GvrOf(key.resource), key.namespace)
  }

  // ---- String identities do not collide ----

  ghost predicate Free(s: string, sep: char) {
    forall i :: 0 <= i < |s| ==> s[i] != sep
  }

  /** Splitting at the first separator is unambiguous. */
  lemma SplitUnique(a: string, x: string, b: string, y: string, sep: char)
    requires Free(a, sep) && Free(b, sep)
    requires a + [sep] + x == b + [sep] + y
    ensures a == b && x == y
  {
    var s, t := a + [sep] + x, b + [sep] + y;
    assert s[|a|] == sep && t[|b|] == sep;
    assert forall i :: 0 <= i < |a| ==> s[i] == a[i];
    assert forall i :: 0 <= i < |b| ==> t[i] == b[i];
    assert |a| == |b|;
    assert a == s[..|a|] && b == t[..|b|];
    assert x == s[|a| + 1..] && y == t[|b| + 1..];
  }

  /** And so is splitting at the last one. */
  lemma SplitLastUnique(a: string, x: string, b: string, y: string, sep: char)
    requires Free(x, sep) && Free(y, sep)
    requires a + [sep] + x == b + [sep] + y
    ensures a == b && x == y
  {
    var s, t := a + [sep] + x, b + [sep] + y;
    assert s[|a|] == sep && t[|b|] == sep;
    assert forall i :: |a| < i < |s| ==> s[i] == x[i - |a| - 1];
    assert forall i :: |b| < i < |t| ==> t[i] == y[i - |b| - 1];
    assert |a| == |b|;
    assert a == s[..|a|] && b == t[..|b|];
    assert x == s[|a| + 1..] && y == t[|b| + 1..];
  }

  lemma FreeConcat(a: string, b: string, sep: char)
    requires Free(a, sep) && Free(b, sep)
    ensures Free(a + b, sep)
  {
  }

  lemma ApiGroupIsFree(r: Resource)
    ensures Free(ApiGroup(r), '=') && Free(ApiGroup(r), '|')
  {
  }

  lemma GvrResourceIsFree(r: Resource)
    requires HasInformer(r)
    ensures Free(GvrOf(r).resource, '|')
  {
    if r.Crds? {
      assert Free("customresourcedefinitions", '|');
    } else if r.Pods? || r.Deployments? || r.StatefulSets? || r.DaemonSets? || r.Services? {
      WorkloadNameIsFree(r);
    } else {
      OtherNameIsFree(r);
    }
  }

  lemma WorkloadNameIsFree(r: Resource)
    requires r.Pods? || r.Deployments? || r.StatefulSets? || r.DaemonSets? || r.Services?
    ensures Free(ResourceName(r), '|')
  {
  }

  lemma OtherNameIsFree(r: Resource)
    requires r.Ingresses? || r.ConfigMaps? || r.Secrets? || r.Events? || r.Nodes?
    ensures Free(ResourceName(r), '|')
  {
  }

  lemma GvrPartsAreFree(r: Resource)
    requires HasInformer(r)
    ensures var g := GvrOf(r);
            Free(g.group + "/" + g.version + ", Resource", '=') && Free(GvrString(g), '|')
  {
    ApiGroupIsFree(r);
    GvrResourceIsFree(r);
    var g := GvrOf(r);
    FreeConcat(g.group, "/", '=');
    FreeConcat(g.group, "/", '|');
    FreeConcat(g.group + "/", "v1", '=');
    FreeConcat(g.group + "/", "v1", '|');
    FreeConcat(g.group + "/" + "v1", ", Resource", '=');
    FreeConcat(g.group + "/" + "v1", ", Resource=", '|');
    FreeConcat(g.group + "/" + "v1" + ", Resource=", g.resource, '|');
  }

  /** The table is injective on the resource part although crds is renamed. */
  lemma GvrResourceInjective(r1: Resource, r2: Resource)
    requires HasInformer(r1) && HasInformer(r2)
    requires GvrOf(r1).resource == GvrOf(r2).resource
    ensures r1 == r2
  {
    var a, b := GvrOf(r1).resource, GvrOf(r2).resource;
    assert |a| == |b| && a[0] == b[0];
    assert |a| > 3 && a[3] == b[3];
  }

  /** Pool entries of different resources or namespaces never share a key, whatever the namespace holds. */
  lemma EntryKeyInjective(r1: Resource, n1: string, r2: Resource, n2: string)
    requires HasInformer(r1) && HasInformer(r2)
    requires EntryKey(GvrOf(r1), n1) == EntryKey(GvrOf(r2), n2)
    ensures r1 == r2 && n1 == n2
  {
    GvrPartsAreFree(r1);
    GvrPartsAreFree(r2);
    GvrSplits(GvrOf(r1), n1, GvrOf(r2), n2);
    GvrResourceInjective(r1, r2);
  }

  /** Whatever the group, version and resource are, as long as the separators stay out of them. */
  lemma GvrSplits(g1: Gvr, n1: string, g2: Gvr, n2: string)
    requires Free(g1.group + "/" + g1.version + ", Resource", '=') && Free(GvrString(g1), '|')
    requires Free(g2.group + "/" + g2.version + ", Resource", '=') && Free(GvrString(g2), '|')
    requires EntryKey(g1, n1) == EntryKey(g2, n2)
    ensures g1.resource == g2.resource && n1 == n2
  {
    SplitUnique(GvrString(g1), n1, GvrString(g2), n2, '|');
    var p1, p2 := g1.group + "/" + g1.version + ", Resource", g2.group + "/" + g2.version + ", Resource";
    assert GvrString(g1) == p1 + ['='] + g1.resource;
    assert GvrString(g2) == p2 + ['='] + g2.resource;
    SplitUnique(p1, g1.resource, p2, g2.resource, '=');
  }

  /** watchID concatenates free text with bars, so two keys may share it ... */
  lemma WatchIdsCollide()
    ensures exists k1: SubKey, k2: SubKey :: k1 != k2 && Ordinary(k1) && Ordinary(k2) && WatchId(k1) == WatchId(k2)
  {
    var k1, k2 := SubKey("c", Pods, "a|b", ""), SubKey("c", Pods, "a", "b|");
    assert k1.namespace[1] == '|' && |k1.namespace| != |k2.namespace|;
    assert WatchId(k1) == "c|pods|a|b|" == WatchId(k2);
  }

  /** ... but never two keys of one cluster that share a pool entry: there a handler identifies its key. */
  lemma WatchIdIdentifiesWithinEntry(k1: SubKey, k2: SubKey)
    requires Ordinary(k1) && Ordinary(k2) && k1.cluster == k2.cluster
    requires EntryOf(k1) == EntryOf(k2) && WatchId(k1) == WatchId(k2)
    ensures k1 == k2
  {
    EntryKeyInjective(k1.resource, k1.namespace, k2.resource, k2.namespace);
    var prefix := k1.cluster + "|" + ResourceName(k1.resource) + "|" + k1.namespace + "|";
    assert WatchId(k1) == prefix + k1.name && WatchId(k2) == prefix + k2.name;
    assert k1.name == WatchId(k1)[|prefix|..];
    assert k2.name == WatchId(k2)[|prefix|..];
  }
}
