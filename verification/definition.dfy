/** `ModelDefinition.get_service`: look a service up by name, in the
    cluster named on the command line or in every cluster, and normalise it. */
module Definition {
  import opened Results
  import opened ModelTypes
  import opened Selection
  import opened Resolver
  import opened Normalizer

  /** The descriptor of the unique in-scope service called `name`. */
  function GetService(doc: Document, opts: Options, expand: Expander, name: string): (r: Result<Descriptor, Error>)
    ensures r.Ok? ==>
      && ServicesList(doc, opts.cluster, expand).Ok?
      && var ss := ServicesList(doc, opts.cluster, expand).value;
      && (exists i :: UniqueMatch(ss, ServiceName, name, i) && r.value.service == ss[i])
      && r.value.service.raw.name == Some(name)
      && r.value.service.raw.image.Some?
      && (opts.cluster.Some? ==> r.value.service.clusterName == opts.cluster.value)
      && (r.value.apiCfg.Override? <==> opts.docker.url.Some?)
      && (r.value.apiCfg.Declared? ==>
            && r.value.service.cluster.hosts.Some?
            && r.value.apiCfg.host in r.value.service.cluster.hosts.value
            && r.value.apiCfg.host.name == r.value.service.raw.host)
  {
    var ss :- ServicesList(doc, opts.cluster, expand);
    var svc :- FindService(ss, name);
    Normalize(svc, name, opts)
  }

  /** How `get_service` ends: a listing error is passed on; then the lookup
      errors (a nameless service, none or two called `name`) are passed on;
      otherwise the result is the normalisation of the unique match. */
  lemma GetServiceOutcome(doc: Document, opts: Options, expand: Expander, name: string)
    ensures var listed := ServicesList(doc, opts.cluster, expand);
      listed.Err? ==> GetService(doc, opts, expand, name) == listed.PropagateFailure()
    ensures var listed := ServicesList(doc, opts.cluster, expand);
      listed.Ok? && !AllNamed(listed.value, ServiceName) ==>
        GetService(doc, opts, expand, name) == Err(Template(ServiceMissingName))
    ensures var listed := ServicesList(doc, opts.cluster, expand);
      listed.Ok? && AllNamed(listed.value, ServiceName) &&
      (forall i :: 0 <= i < |listed.value| ==> listed.value[i].raw.name != Some(name)) ==>
        GetService(doc, opts, expand, name) == Err(Template(ServiceNotFound(name)))
    ensures var listed := ServicesList(doc, opts.cluster, expand);
      listed.Ok? && AllNamed(listed.value, ServiceName) &&
      (exists i, j :: 0 <= i < j < |listed.value| && listed.value[i].raw.name == Some(name) && listed.value[j].raw.name == Some(name)) ==>
        GetService(doc, opts, expand, name) == Err(Template(DuplicateService(name)))
    ensures var listed := ServicesList(doc, opts.cluster, expand);
      listed.Ok? && AllNamed(listed.value, ServiceName) ==>
        forall i :: UniqueMatch(listed.value, ServiceName, name, i) ==>
          GetService(doc, opts, expand, name) == Normalize(listed.value[i], name, opts)
  {
  }

  /** Without a cluster filter, two services with the same name in two
      different clusters make the lookup fail as a duplicate (or earlier,
      when some service has no name at all). */
  lemma DuplicateAcrossClusters(doc: Document, opts: Options, expand: Expander, name: string,
                                i: int, p: int, j: int, q: int)
    requires opts.cluster.None? && Listable(doc)
    requires ServicesList(doc, None, expand).Ok?
    requires 0 <= i < j < |doc.clusters.value|
    requires ExpandCluster(doc.clusters.value[i], expand).Ok? && ExpandCluster(doc.clusters.value[j], expand).Ok?
    requires 0 <= p < |ExpandCluster(doc.clusters.value[i], expand).value|
    requires 0 <= q < |ExpandCluster(doc.clusters.value[j], expand).value|
    requires ExpandCluster(doc.clusters.value[i], expand).value[p].raw.name == Some(name)
    requires ExpandCluster(doc.clusters.value[j], expand).value[q].raw.name == Some(name)
    ensures GetService(doc, opts, expand, name) == Err(Template(DuplicateService(name)))
         || GetService(doc, opts, expand, name) == Err(Template(ServiceMissingName))
  {
    var cs := doc.clusters.value;
    var ss := ServicesList(doc, None, expand).value;
    assert ss == AllServices(cs, expand).value;
    AllServicesBlock(cs, expand, j);
    var before := AllServices(cs[..j], expand).value;
    var blockJ := ExpandCluster(cs[j], expand).value;
    assert cs[..j][i] == cs[i];
    AllServicesBlock(cs[..j], expand, i);
    var blockI := ExpandCluster(cs[i], expand).value;
    var lead := AllServices(cs[..j][..i], expand).value;
    var tail := AllServices(cs[j + 1..], expand).value;
    var gap := AllServices(cs[..j][i + 1..], expand).value;
    assert ss == lead + blockI + gap + blockJ + tail;
    MatchesInTwoParts(lead, blockI, gap, blockJ, tail, ServiceName, name, p, q);
    var found := FindService(ss, name);
    if AllNamed(ss, ServiceName) {
      assert found == Err(Template(DuplicateService(name)));
    } else {
      assert found == Err(Template(ServiceMissingName));
    }
  }

  /** With a command-line endpoint the cluster's `hosts` play no part: any
      other `hosts` list gives the same outcome and the same endpoint. */
  lemma OverrideIgnoresHosts(svc: Service, name: string, opts: Options, others: Option<seq<HostConfig>>)
    requires opts.docker.url.Some?
    ensures
      var moved := Service(svc.raw, svc.clusterName, svc.cluster.(hosts := others));
      var r, r' := Normalize(svc, name, opts), Normalize(moved, name, opts);
      && (r.Ok? <==> r'.Ok?)
      && (r.Ok? ==> r.value.apiCfg == r'.value.apiCfg == Override(opts.docker))
  {
  }

  /** The end-to-end example: cluster `core` holding service `nova` that
      runs on host `node1`, the model file being /srv/shaddock/model.yml. */
  function Node1(): HostConfig {
    HostConfig(Some("node1"), Some("tcp://node1:2375"), None, None, None, None, None, None, None)
  }

  function Core(): Cluster {
    Cluster(Some("core"), Some("services"), None, Value("images"), Some([Node1()]))
  }

  function Nova(): RawService {
    RawService(Some("nova"), Some("shaddock/nova:latest"), Some("node1"), None, None, None, None)
  }

  function NovaOptions(): Options {
    Options(None, "/srv/shaddock/model.yml", None, DockerArgs(None, None, None, None, None, false, false, false))
  }

  /** The expansion of `core`'s service list. */
  function NovaExpand(text: string, vars: Option<VarMap>): Result<seq<RawService>, string> {
    Ok([Nova()])
  }

  /** The example resolves to the `nova` image built under the model's
      `images` directory and bound to `node1`'s endpoint. */
  lemma NovaExample()
    ensures
      var r := GetService(Document(Some([Core()])), NovaOptions(), NovaExpand, "nova");
      && r.Ok?
      && r.value.service.raw.image == Some("shaddock/nova:latest")
      && r.value.path == "/srv/shaddock/images/shaddock/nova"
      && r.value.apiCfg == Declared(Node1())
      && r.value.apiCfg.host.url == Some("tcp://node1:2375")
  {
    var doc, opts := Document(Some([Core()])), NovaOptions();
    var svc := Service(Nova(), "core", Core());
    NovaLookup();
    NovaPaths(opts);
    NovaStrings();
    NovaApi();
    var d := Descriptor(svc, "/srv/shaddock/images", "/srv/shaddock/images/shaddock/nova", None, None, None, None, Declared(Node1()));
    assert Normalize(svc, "nova", opts) == Ok(d);
    assert GetService(doc, opts, NovaExpand, "nova") == Ok(d);
  }

  /** The example's only cluster lists exactly the one service. */
  lemma NovaLookup()
    ensures ServicesList(Document(Some([Core()])), None, NovaExpand) == Ok([Service(Nova(), "core", Core())])
    ensures FindService([Service(Nova(), "core", Core())], "nova") == Ok(Service(Nova(), "core", Core()))
  {
    var svc := Service(Nova(), "core", Core());
    assert ClustersList(Document(Some([Core()]))) == Ok([Core()]);
    AllServicesSingle(Core(), NovaExpand);
    assert Stamp([Nova()], "core", Core()) == [svc];
    assert UniqueMatch([svc], ServiceName, "nova", 0);
  }

  /** The example's endpoint is its only host. */
  lemma NovaApi()
    ensures ResolveApi(NovaOptions().docker, Some([Node1()]), Some("node1"), "nova") == Ok(Declared(Node1()))
  {
    assert AllNamed([Node1()], HostName);
    assert UniqueMatch([Node1()], HostName, "node1", 0);
  }

  /** The string equalities the example relies on. */
  lemma NovaStrings()
    ensures "/srv/shaddock" + "/" + "model.yml" == "/srv/shaddock/model.yml"
    ensures "/srv/shaddock" + "/" + "images" == "/srv/shaddock/images"
    ensures "shaddock/nova" + ":" + "latest" == "shaddock/nova:latest"
    ensures "/srv/shaddock/images" + "/" + "shaddock/nova" == "/srv/shaddock/images/shaddock/nova"
  {
  }

  /** The directory and build path of the example, computed. */
  lemma NovaPaths(opts: Options)
    requires opts.imagesDir.None? && opts.modelPath == "/srv/shaddock/model.yml"
    ensures ImagesDir(opts, Value("images")) == Ok("/srv/shaddock/images")
    ensures ImageRepo("shaddock/nova:latest") == "shaddock/nova"
  {
    NovaStrings();
    ImagesDirBesideModel(opts, "/srv/shaddock", "model.yml", "images");
    ImageRepoOfTagged("shaddock/nova", "latest");
  }

  /** The ports example: `{8774: [0.0.0.0, 8774], 8775: [0.0.0.0, 8775]}`
      becomes the port list [8774, 8775] with the mapping kept as bindings. */
  lemma PortsExample(svc: Service, opts: Options)
    requires svc.raw.ports == Some([(8774, Binding("0.0.0.0", 8774)), (8775, Binding("0.0.0.0", 8775))])
    requires Normalize(svc, "nova", opts).Ok?
    ensures Normalize(svc, "nova", opts).value.ports == Some([8774, 8775])
    ensures Normalize(svc, "nova", opts).value.portBindings == svc.raw.ports
  {
    var ports := Normalize(svc, "nova", opts).value.ports.value;
    assert |ports| == 2 && ports[0] == 8774 && ports[1] == 8775;
    assert ports == [8774, 8775];
  }
}
