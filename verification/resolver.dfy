/** Cluster and service lookup: `_get_clusters_list`, `_get_cluster`,
    `_get_services_list_from_clu`, `get_services_list` and the lookup half of
    `get_service`. */
module Resolver {
  import opened Results
  import opened ModelTypes
  import opened Selection

  function ClusterName(c: Cluster): Option<string> {
    c.name
  }

  function ServiceName(s: Service): Option<string> {
    s.raw.name
  }

  /** The document lists its clusters and every cluster has `services`. */
  predicate Listable(doc: Document) {
    && doc.clusters.Some?
    && forall i :: 0 <= i < |doc.clusters.value| ==> doc.clusters.value[i].services.Some?
  }

  /** The cluster list, in document order. Reading `clusters` and every
      cluster's `services` raises `KeyError` when the key is absent. */
  function ClustersList(doc: Document): (r: Result<seq<Cluster>, Error>)
    ensures r.Ok? <==> Listable(doc)
    ensures r.Ok? ==> r.value == doc.clusters.value
    ensures doc.clusters.None? ==> r == Err(KeyError("clusters"))
    ensures doc.clusters.Some? && !Listable(doc) ==> r == Err(KeyError("services"))
  {
    match doc.clusters
    case None => Err(KeyError("clusters"))
    case Some(cs) =>
      if forall i :: 0 <= i < |cs| ==> cs[i].services.Some? then Ok(cs)
      else Err(KeyError("services"))
  }

  /** The unique cluster called `name`. */
  function GetCluster(doc: Document, name: string): (r: Result<Cluster, Error>)
    ensures !Listable(doc) ==> r == ClustersList(doc).PropagateFailure()
    ensures Listable(doc) ==>
      var cs := doc.clusters.value;
      && (r.Ok? <==> AllNamed(cs, ClusterName) && exists i :: UniqueMatch(cs, ClusterName, name, i))
      && (r.Ok? ==> exists i :: UniqueMatch(cs, ClusterName, name, i) && r.value == cs[i])
      && (r == Err(Template(ClusterMissingName)) <==> !AllNamed(cs, ClusterName))
      && (r == Err(Template(ClusterNotFound(name))) <==>
            AllNamed(cs, ClusterName) && forall i :: 0 <= i < |cs| ==> cs[i].name != Some(name))
      && (r == Err(Template(DuplicateCluster(name))) <==>
            && AllNamed(cs, ClusterName)
            && exists i, j :: 0 <= i < j < |cs| && cs[i].name == Some(name) && cs[j].name == Some(name))
  {
    var cs :- ClustersList(doc);
    match Pick(cs, ClusterName, name)
    case NameMissing => Err(Template(ClusterMissingName))
    case Ambiguous => Err(Template(DuplicateCluster(name)))
    case NoMatch => Err(Template(ClusterNotFound(name)))
    case Unique(c) => Ok(c)
  }

  /** Each raw service stamped with the cluster's name and the cluster. */
  function Stamp(raws: seq<RawService>, clusterName: string, c: Cluster): (r: seq<Service>)
    ensures |r| == |raws|
    ensures forall i :: 0 <= i < |r| ==> r[i] == Service(raws[i], clusterName, c)
  {
    seq(|raws|, i requires 0 <= i < |raws| => Service(raws[i], clusterName, c))
  }

  /** The raw entries behind a list of stamped services. */
  function Strip(ss: seq<Service>): (r: seq<RawService>)
    ensures |r| == |ss|
    ensures forall i :: 0 <= i < |ss| ==> r[i] == ss[i].raw
  {
    seq(|ss|, i requires 0 <= i < |ss| => ss[i].raw)
  }

  /** The services of one cluster: its service text expanded, then every
      entry stamped in declaration order. Stamping reads the cluster's
      `name`, so a nameless cluster raises `KeyError` once it has a service. */
  function ExpandCluster(c: Cluster, expand: Expander): (r: Result<seq<Service>, Error>)
    ensures r.Ok? ==> forall s :: s in r.value ==> Some(s.clusterName) == c.name && s.cluster == c
  {
    match c.services
    case None => Err(KeyError("services"))
    case Some(text) =>
      match expand(text, c.vars)
      case Err(detail) => Err(ExpandFailure(detail))
      case Ok(raws) =>
        if |raws| == 0 then Ok([])
        else if c.name.None? then Err(KeyError("name"))
        else Ok(Stamp(raws, c.name.value, c))
  }

  /** Stripping the stamps gives back exactly what the expander produced:
      stamping adds the cluster fields and changes nothing else. */
  lemma {:induction false} StripStamp(raws: seq<RawService>, clusterName: string, c: Cluster)
    ensures Strip(Stamp(raws, clusterName, c)) == raws
  {
    var r := Strip(Stamp(raws, clusterName, c));
    assert |r| == |raws|;
    forall i | 0 <= i < |raws| ensures r[i] == raws[i] {
      assert Stamp(raws, clusterName, c)[i].raw == raws[i];
    }
  }

  /** What expanding a cluster yields: its `services` text is required,
      an expander failure is passed on, and otherwise the expander's entries
      come back in declaration order, each unchanged apart from the stamp;
      stamping a non-empty list needs the cluster's `name`. */
  lemma ExpandClusterOutcome(c: Cluster, expand: Expander)
    ensures c.services.None? ==> ExpandCluster(c, expand) == Err(KeyError("services"))
    ensures c.services.Some? && expand(c.services.value, c.vars).Err? ==>
      ExpandCluster(c, expand) == Err(ExpandFailure(expand(c.services.value, c.vars).error))
    ensures c.services.Some? && expand(c.services.value, c.vars).Ok? ==>
      var raws, r := expand(c.services.value, c.vars).value, ExpandCluster(c, expand);
      && (r.Ok? <==> |raws| == 0 || c.name.Some?)
      && (r.Err? ==> r.error == KeyError("name"))
      && (r.Ok? ==> Strip(r.value) == raws)
  {
    if c.services.Some? && expand(c.services.value, c.vars).Ok? {
      var raws := expand(c.services.value, c.vars).value;
      if |raws| > 0 && c.name.Some? {
        StripStamp(raws, c.name.value, c);
      }
    }
  }

  /** The services of every cluster, concatenated in document order; the
      first cluster whose expansion fails aborts the whole list. */
  function AllServices(cs: seq<Cluster>, expand: Expander): (r: Result<seq<Service>, Error>)
    ensures r.Ok? ==> forall s :: s in r.value ==> s.cluster in cs && Some(s.clusterName) == s.cluster.name
  {
    if |cs| == 0 then Ok([])
    else
      var first :- ExpandCluster(cs[0], expand);
      var rest :- AllServices(cs[1..], expand);
      Ok(first + rest)
  }

  /** The list is built exactly when every cluster expands, and otherwise
      fails with the error of the first cluster that does not. */
  lemma {:induction false} AllServicesOutcome(cs: seq<Cluster>, expand: Expander)
    ensures AllServices(cs, expand).Ok? <==> forall i :: 0 <= i < |cs| ==> ExpandCluster(cs[i], expand).Ok?
    ensures AllServices(cs, expand).Err? ==> exists i ::
      && 0 <= i < |cs|
      && ExpandCluster(cs[i], expand) == AllServices(cs, expand).PropagateFailure()
      && (forall j :: 0 <= j < i ==> ExpandCluster(cs[j], expand).Ok?)
  {
    if |cs| > 0 {
      AllServicesOutcome(cs[1..], expand);
      if ExpandCluster(cs[0], expand).Ok? {
        if AllServices(cs[1..], expand).Err? {
          var k :| && 0 <= k < |cs[1..]|
                   && ExpandCluster(cs[1..][k], expand) == AllServices(cs[1..], expand).PropagateFailure()
                   && (forall j :: 0 <= j < k ==> ExpandCluster(cs[1..][j], expand).Ok?);
          assert cs[k + 1] == cs[1..][k];
          forall j | 0 <= j < k + 1 ensures ExpandCluster(cs[j], expand).Ok? {
            if j > 0 {
              assert cs[j] == cs[1..][j - 1];
            }
          }
        } else {
          forall j | 0 <= j < |cs| ensures ExpandCluster(cs[j], expand).Ok? {
            if j > 0 {
              assert cs[j] == cs[1..][j - 1];
            }
          }
        }
      }
    }
  }

  /** Listing `a + b` lists `a`, then `b`. */
  lemma {:induction false} AllServicesAppend(a: seq<Cluster>, b: seq<Cluster>, expand: Expander)
    ensures AllServices(a + b, expand) ==
      if AllServices(a, expand).Err? then AllServices(a, expand)
      else if AllServices(b, expand).Err? then AllServices(b, expand)
      else Ok(AllServices(a, expand).value + AllServices(b, expand).value)
  {
    if |a| == 0 {
      assert a + b == b;
      if AllServices(b, expand).Ok? {
        assert [] + AllServices(b, expand).value == AllServices(b, expand).value;
      }
    } else {
      assert (a + b)[0] == a[0];
      assert (a + b)[1..] == a[1..] + b;
      AllServicesAppend(a[1..], b, expand);
      if ExpandCluster(a[0], expand).Ok? && AllServices(a[1..], expand).Ok? && AllServices(b, expand).Ok? {
        var x := ExpandCluster(a[0], expand).value;
        var y := AllServices(a[1..], expand).value;
        var z := AllServices(b, expand).value;
        assert x + (y + z) == (x + y) + z;
      }
    }
  }

  /** Listing a single cluster is expanding it. */
  lemma AllServicesSingle(c: Cluster, expand: Expander)
    ensures AllServices([c], expand) == ExpandCluster(c, expand)
  {
    assert [c][1..] == [];
    if ExpandCluster(c, expand).Ok? {
      assert ExpandCluster(c, expand).value + [] == ExpandCluster(c, expand).value;
    }
  }

  lemma SplitAt<T>(xs: seq<T>, i: int)
    requires 0 <= i < |xs|
    ensures xs == xs[..i] + [xs[i]] + xs[i + 1..]
  {
  }

  /** Listing `pre + [c] + post` lists `pre`, then `c`, then `post`. */
  lemma AllServicesAround(pre: seq<Cluster>, c: Cluster, post: seq<Cluster>, expand: Expander)
    requires AllServices(pre + [c] + post, expand).Ok?
    ensures AllServices(pre, expand).Ok?
    ensures ExpandCluster(c, expand).Ok?
    ensures AllServices(post, expand).Ok?
    ensures AllServices(pre + [c] + post, expand).value ==
      AllServices(pre, expand).value + ExpandCluster(c, expand).value + AllServices(post, expand).value
  {
    assert pre + [c] + post == pre + ([c] + post);
    AllServicesAppend(pre, [c] + post, expand);
    AllServicesAppend([c], post, expand);
    AllServicesSingle(c, expand);
    var a, b, d := AllServices(pre, expand).value, ExpandCluster(c, expand).value, AllServices(post, expand).value;
    assert a + (b + d) == a + b + d;
  }

  /** The expansion of cluster `i` is a contiguous block of the full list,
      preceded by the blocks of the clusters declared before it. */
  lemma AllServicesBlock(cs: seq<Cluster>, expand: Expander, i: int)
    requires AllServices(cs, expand).Ok?
    requires 0 <= i < |cs|
    ensures AllServices(cs[..i], expand).Ok?
    ensures ExpandCluster(cs[i], expand).Ok?
    ensures AllServices(cs[i + 1..], expand).Ok?
    ensures AllServices(cs, expand).value ==
      AllServices(cs[..i], expand).value
      + ExpandCluster(cs[i], expand).value
      + AllServices(cs[i + 1..], expand).value
  {
    SplitAt(cs, i);
    AllServicesAround(cs[..i], cs[i], cs[i + 1..], expand);
  }

  /** The loop of `get_services_list` without a cluster filter: expand each
      cluster and append its services to the list built so far. */
  method CollectServices(cs: seq<Cluster>, expand: Expander) returns (r: Result<seq<Service>, Error>)
    ensures r == AllServices(cs, expand)
  {
    var acc: seq<Service> := [];
    var k := 0;
    while k < |cs|
      invariant 0 <= k <= |cs|
      invariant AllServices(cs[..k], expand) == Ok(acc)
    {
      var block := ExpandCluster(cs[k], expand);
      assert cs[..k + 1] == cs[..k] + [cs[k]];
      AllServicesAppend(cs[..k], [cs[k]], expand);
      AllServicesSingle(cs[k], expand);
      if block.Err? {
        assert cs == cs[..k + 1] + cs[k + 1..];
        AllServicesAppend(cs[..k + 1], cs[k + 1..], expand);
        return Err(block.error);
      }
      acc := acc + block.value;
      k := k + 1;
    }
    assert cs[..k] == cs;
    r := Ok(acc);
  }

  /** `get_services_list`: the named cluster's services when a cluster
      filter is given, every cluster's services otherwise. */
  function ServicesList(doc: Document, filter: Option<string>, expand: Expander): (r: Result<seq<Service>, Error>)
    ensures !Listable(doc) ==> r == ClustersList(doc).PropagateFailure()
    ensures filter.None? && Listable(doc) ==> r == AllServices(doc.clusters.value, expand)
    ensures filter.None? && r.Ok? ==> forall s :: s in r.value ==> s.cluster in doc.clusters.value
    ensures filter.Some? && GetCluster(doc, filter.value).Err? ==> r == GetCluster(doc, filter.value).PropagateFailure()
    ensures filter.Some? && r.Ok? ==>
      && GetCluster(doc, filter.value).Ok?
      && forall s :: s in r.value ==> s.clusterName == filter.value && s.cluster == GetCluster(doc, filter.value).value
    ensures filter.Some? && GetCluster(doc, filter.value).Ok? ==> r == ExpandCluster(GetCluster(doc, filter.value).value, expand)
  {
    match filter
    case None =>
      var cs :- ClustersList(doc);
      AllServices(cs, expand)
    case Some(f) =>
      var c :- GetCluster(doc, f);
      ExpandCluster(c, expand)
  }

  /** The unique service called `name` among `ss`. */
  function FindService(ss: seq<Service>, name: string): (r: Result<Service, Error>)
    ensures r.Ok? <==> AllNamed(ss, ServiceName) && exists i :: UniqueMatch(ss, ServiceName, name, i)
    ensures r.Ok? ==> exists i :: UniqueMatch(ss, ServiceName, name, i) && r.value == ss[i]
    ensures r == Err(Template(ServiceMissingName)) <==> !AllNamed(ss, ServiceName)
    ensures r == Err(Template(ServiceNotFound(name))) <==>
      AllNamed(ss, ServiceName) && forall i :: 0 <= i < |ss| ==> ss[i].raw.name != Some(name)
    ensures r == Err(Template(DuplicateService(name))) <==>
      && AllNamed(ss, ServiceName)
      && exists i, j :: 0 <= i < j < |ss| && ss[i].raw.name == Some(name) && ss[j].raw.name == Some(name)
  {
    match Pick(ss, ServiceName, name)
    case NameMissing => Err(Template(ServiceMissingName))
    case Ambiguous => Err(Template(DuplicateService(name)))
    case NoMatch => Err(Template(ServiceNotFound(name)))
    case Unique(s) => Ok(s)
  }
}
