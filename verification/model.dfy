/** The entities of a parsed shaddock model document and the errors that
    resolving it can raise. Every optional YAML key is an `Option`, `None`
    meaning the key is absent; `images` also distinguishes an explicit null. */
module ModelTypes {
  import opened Results

  /** A `ports` mapping value: the host address and port a container port
      is published on. */
  datatype Binding = Binding(hostIp: string, hostPort: int)

  /** A `volumes` mapping value, in the container runtime's bind format. */
  datatype BindSpec = BindSpec(bind: string, ro: bool)

  type PortMap = seq<(int, Binding)>
  type VolumeMap = seq<(string, BindSpec)>

  /** `vars` of a cluster: template variable name to value. */
  type VarMap = seq<(string, string)>

  /** One entry of a cluster's `hosts` list: a container-runtime endpoint. */
  datatype HostConfig = HostConfig(
    name: Option<string>,
    url: Option<string>,
    version: Option<string>,
    certPath: Option<string>,
    keyPath: Option<string>,
    cacertPath: Option<string>,
    tlsVerify: Option<bool>,
    tls: Option<bool>,
    boot2docker: Option<bool>)

  /** One entry of the document's `clusters` list. `services` is the text
      of the service list (a template when `vars` is present). */
  datatype Cluster = Cluster(
    name: Option<string>,
    services: Option<string>,
    vars: Option<VarMap>,
    images: Entry<string>,
    hosts: Option<seq<HostConfig>>)

  /** The parsed root document. */
  datatype Document = Document(clusters: Option<seq<Cluster>>)

  /** A service entry as written in the model. */
  datatype RawService = RawService(
    name: Option<string>,
    image: Option<string>,
    host: Option<string>,
    ports: Option<PortMap>,
    volumes: Option<VolumeMap>,
    privileged: Option<bool>,
    networkMode: Option<string>)

  /** A service entry stamped with its owning cluster's name and a copy of
      that cluster (the source's back-reference). */
  datatype Service = Service(raw: RawService, clusterName: string, cluster: Cluster)

  /** The `docker_*` command-line arguments. */
  datatype DockerArgs = DockerArgs(
    url: Option<string>,
    version: Option<string>,
    certPath: Option<string>,
    keyPath: Option<string>,
    cacertPath: Option<string>,
    tlsVerify: bool,
    tls: bool,
    boot2docker: bool)

  /** The command-line arguments the resolver reads. */
  datatype Options = Options(
    cluster: Option<string>,
    modelPath: string,
    imagesDir: Option<string>,
    docker: DockerArgs)

  /** The effective runtime endpoint of a service: the empty dict, the
      command-line override, or the matching `hosts` entry verbatim. */
  datatype ApiCfg = NoApi | Override(args: DockerArgs) | Declared(host: HostConfig)

  /** A normalised service. `ports`/`portBindings` and `volumes`/`binds` are
      `None` when the raw service had no such mapping (the source then leaves
      those keys as they were). */
  datatype Descriptor = Descriptor(
    service: Service,
    imagesDir: string,
    path: string,
    ports: Option<seq<int>>,
    portBindings: Option<PortMap>,
    volumes: Option<seq<string>>,
    binds: Option<VolumeMap>,
    apiCfg: ApiCfg)

  /** The messages of `TemplateFileError`. */
  datatype TemplateFileError =
    | ClusterNotFound(cluster: string)
    | DuplicateCluster(cluster: string)
    | ClusterMissingName
    | ServiceNotFound(service: string)
    | DuplicateService(service: string)
    | ServiceMissingName
    | MissingImagesPath
    | MissingImage(service: string)
    | HostNotFound(host: string)
    | DuplicateHost(service: string)

  /** Everything a lookup can raise: a `TemplateFileError`, a `KeyError`
      the source does not catch, or a failure of template rendering or
      YAML parsing of a cluster's service list. */
  datatype Error =
    | Template(fault: TemplateFileError)
    | KeyError(key: string)
    | ExpandFailure(detail: string)

  /** Jinja2 rendering of a service list with a cluster's `vars` (when the
      key is present) followed by YAML parsing. It is foreign to the model. */
  type Expander = (string, Option<VarMap>) -> Result<seq<RawService>, string>
}
