/** The normalisation half of `get_service`: images directory, build path,
    port and volume splitting, and the runtime endpoint. */
module Normalizer {
  import opened Results
  import opened ModelTypes
  import opened Selection
  import opened PosixPath
  import opened AssocList

  /** `images_dir`: the command-line directory verbatim, else the cluster's
      `images` resolved against the model file's directory. Only a null
      `images` is reported as a `TemplateFileError` (the `TypeError` the
      source catches); an absent key is an uncaught `KeyError`. */
  function ImagesDir(opts: Options, images: Entry<string>): (r: Result<string, Error>)
    ensures opts.imagesDir.Some? ==> r == Ok(opts.imagesDir.value)
    ensures opts.imagesDir.None? ==> (r.Ok? <==> images.Value?)
    ensures opts.imagesDir.None? && images.Missing? ==> r == Err(KeyError("images"))
    ensures opts.imagesDir.None? && images.Null? ==> r == Err(Template(MissingImagesPath))
    ensures opts.imagesDir.None? && images.Value? ==>
      && |images.v| <= |r.value|
      && r.value[|r.value| - |images.v|..] == images.v
      && (IsAbsolute(images.v) ==> r.value == images.v)
      && (!IsAbsolute(images.v) ==> Dirname(opts.modelPath) <= r.value)
    ensures opts.imagesDir.None? && images.Value? && !IsAbsolute(images.v) ==>
      var dir := Dirname(opts.modelPath);
      && |dir| + |images.v| <= |r.value|
      && AllSlashes(r.value[|dir|..|r.value| - |images.v|])
      && (|dir| == 0 || dir[|dir| - 1] == '/' ==> |r.value| == |dir| + |images.v|)
      && (|dir| > 0 && dir[|dir| - 1] != '/' ==> |r.value| == |dir| + 1 + |images.v|)
  {
    match opts.imagesDir
    case Some(dir) => Ok(dir)
    case None =>
      match images
      case Missing => Err(KeyError("images"))
      case Null => Err(Template(MissingImagesPath))
      case Value(rel) => Ok(Join(Dirname(opts.modelPath), rel))
  }

  /** A relative `images` lives beside the model file. */
  lemma ImagesDirBesideModel(opts: Options, dir: string, file: string, images: string)
    requires opts.imagesDir.None?
    requires |dir| > 0 && dir[|dir| - 1] != '/' && '/' !in file
    requires opts.modelPath == dir + "/" + file
    requires !IsAbsolute(images)
    ensures ImagesDir(opts, Value(images)) == Ok(dir + "/" + images)
  {
    assert Join(dir, file) == opts.modelPath;
    DirnameOfJoin(dir, file);
  }

  /** A model file given without a directory (`-f model.yml`) puts a
      relative `images` in the current directory, verbatim. */
  lemma ImagesDirBareModel(opts: Options, images: string)
    requires opts.imagesDir.None?
    requires '/' !in opts.modelPath
    requires !IsAbsolute(images)
    ensures ImagesDir(opts, Value(images)) == Ok(images)
  {
    assert Dirname(opts.modelPath) == "";
  }

  /** `image.split(":")[0]`: the image name without its tag, i.e. the part
      before the first ':'. */
  function ImageRepo(image: string): (r: string)
    ensures r <= image
    ensures ':' !in r
    ensures |r| < |image| ==> image[|r|] == ':'
  {
    if |image| == 0 || image[0] == ':' then ""
    else [image[0]] + ImageRepo(image[1..])
  }

  /** Dropping the tag of `repo:tag` gives `repo` back, and an untagged
      image is its own repository name. */
  lemma ImageRepoOfTagged(repo: string, tag: string)
    requires ':' !in repo
    ensures ImageRepo(repo + ":" + tag) == repo
    ensures ImageRepo(repo) == repo
  {
    var s := repo + ":" + tag;
    assert s[|repo|] == ':';
    assert s[..|repo|] == repo;
  }

  function HostName(h: HostConfig): Option<string> {
    h.name
  }

  /** `api_cfg`. With a command-line `docker_url` the eight command-line
      fields are used and `hosts` is never read. Otherwise the cluster's
      `hosts` entry named by the service's `host`: a `KeyError` while
      scanning (no `hosts`, no `host`, or a host entry without `name`) is
      swallowed and leaves the empty dict, except that with an empty
      `hosts` the not-found message itself reads the missing `host`. The
      duplicate message names the service, not the host. */
  function ResolveApi(docker: DockerArgs, hosts: Option<seq<HostConfig>>, host: Option<string>, service: string)
    : (r: Result<ApiCfg, Error>)
    ensures docker.url.Some? ==> r == Ok(Override(docker))
    ensures r.Ok? && r.value.Override? ==> docker.url.Some?
    ensures docker.url.None? && hosts.None? ==> r == Ok(NoApi)
    ensures docker.url.None? && hosts == Some([]) ==>
      r == if host.None? then Err(KeyError("host")) else Err(Template(HostNotFound(host.value)))
    ensures docker.url.None? && hosts.Some? && |hosts.value| > 0 && (host.None? || !AllNamed(hosts.value, HostName)) ==>
      r == Ok(NoApi)
    ensures docker.url.None? && hosts.Some? && host.Some? && AllNamed(hosts.value, HostName) ==>
      var hs := hosts.value;
      && (r.Ok? <==> exists i :: UniqueMatch(hs, HostName, host.value, i))
      && ((forall i :: 0 <= i < |hs| ==> hs[i].name != host) ==> r == Err(Template(HostNotFound(host.value))))
      && ((exists i, j :: 0 <= i < j < |hs| && hs[i].name == host && hs[j].name == host) ==>
            r == Err(Template(DuplicateHost(service))))
    ensures docker.url.None? && hosts.Some? && host.Some? && AllNamed(hosts.value, HostName) ==>
      forall i :: UniqueMatch(hosts.value, HostName, host.value, i) ==> r == Ok(Declared(hosts.value[i]))
    ensures r.Ok? && r.value.Declared? ==>
      && hosts.Some? && host.Some?
      && exists i :: UniqueMatch(hosts.value, HostName, host.value, i) && r.value.host == hosts.value[i]
  {
    if docker.url.Some? then Ok(Override(docker))
    else match hosts
      case None => Ok(NoApi)
      case Some(hs) =>
        match host
        case None => if |hs| == 0 then Err(KeyError("host")) else Ok(NoApi)
        case Some(h) =>
          match Pick(hs, HostName, h)
          case NameMissing => Ok(NoApi)
          case NoMatch => Err(Template(HostNotFound(h)))
          case Ambiguous => Err(Template(DuplicateHost(service)))
          case Unique(cfg) => Ok(Declared(cfg))
  }

  /** The descriptor of a looked-up service, `name` being the name it was
      looked up by. Each step may fail and the first failure is returned. */
  function Normalize(svc: Service, name: string, opts: Options): (r: Result<Descriptor, Error>)
    ensures ImagesDir(opts, svc.cluster.images).Err? ==> r == ImagesDir(opts, svc.cluster.images).PropagateFailure()
    ensures ImagesDir(opts, svc.cluster.images).Ok? && svc.raw.image.None? ==> r == Err(Template(MissingImage(name)))
    ensures ImagesDir(opts, svc.cluster.images).Ok? && svc.raw.image.Some? ==>
      var api := ResolveApi(opts.docker, svc.cluster.hosts, svc.raw.host, name);
      && (r.Ok? <==> api.Ok?)
      && (api.Err? ==> r == api.PropagateFailure())
    ensures r.Ok? ==>
      var d := r.value;
      && d.service == svc
      && ImagesDir(opts, svc.cluster.images) == Ok(d.imagesDir)
      && svc.raw.image.Some?
      && d.path == d.imagesDir + "/" + ImageRepo(svc.raw.image.value)
      && d.apiCfg == ResolveApi(opts.docker, svc.cluster.hosts, svc.raw.host, name).value
    ensures r.Ok? && svc.raw.ports.None? ==> r.value.ports.None? && r.value.portBindings.None?
    ensures r.Ok? && svc.raw.ports.Some? ==>
      var pm := svc.raw.ports.value;
      && r.value.portBindings == Some(pm)
      && r.value.ports.Some? && |r.value.ports.value| == |pm|
      && forall i :: 0 <= i < |pm| ==> r.value.ports.value[i] == pm[i].0
    ensures r.Ok? && svc.raw.volumes.None? ==> r.value.volumes.None? && r.value.binds.None?
    ensures r.Ok? && svc.raw.volumes.Some? ==>
      var vm := svc.raw.volumes.value;
      && r.value.binds == Some(vm)
      && r.value.volumes.Some? && |r.value.volumes.value| == |vm|
      && forall i :: 0 <= i < |vm| ==> r.value.volumes.value[i] == vm[i].0
  {
    var dir :- ImagesDir(opts, svc.cluster.images);
    if svc.raw.image.None? then Err(Template(MissingImage(name)))
    else
      var path := dir + "/" + ImageRepo(svc.raw.image.value);
      var ports := if svc.raw.ports.Some? then Some(Keys(svc.raw.ports.value)) else None;
      var volumes := if svc.raw.volumes.Some? then Some(Keys(svc.raw.volumes.value)) else None;
      var api :- ResolveApi(opts.docker, svc.cluster.hosts, svc.raw.host, name);
      Ok(Descriptor(svc, dir, path, ports, svc.raw.ports, volumes, svc.raw.volumes, api))
  }
}
