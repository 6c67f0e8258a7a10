# shaddock model resolution, in Dafny

This project models the model-resolution engine of shaddock, the class
`ModelDefinition` in `shaddock/model.py`. The engine takes a parsed model
document, which is a list of *clusters*. Each cluster holds a service list,
optional template `vars`, an optional `images` directory and optional
`hosts` (container-runtime endpoints). The engine answers one question: what
is the deployment descriptor of the service called `name`?

Answering it takes four steps:

- **cluster lookup** (`_get_cluster`): the unique cluster with a given name;
- **service-list expansion** (`_get_services_list_from_clu`,
  `get_services_list`): the services of the cluster named on the command
  line, or of every cluster in document order, each stamped with its owning
  cluster;
- **service lookup** (`get_service`): the unique in-scope service with that
  name;
- **normalisation** (`get_service`): `images_dir`, the build `path`,
  `ports`/`port_bindings`, `volumes`/`binds` and the endpoint `api_cfg`.

The source mutates Python dicts in place. The model instead uses immutable
datatypes (`ModelTypes`) and pure functions that return new records. Python
dicts become association lists `seq<(K, V)>`, so their insertion order is
explicit. An absent dict key is `None`. A `KeyError` the source does not
catch is kept as its own error, `KeyError(key)`, apart from the
`TemplateFileError` messages.

Modules, one per file:

- `Results` (results.dfy): `Option`, `Entry` (absent / null / value) and `Result`.
- `AssocList` (assoc.dfy): dict keys and lookup.
- `Selection` (selection.dfy): the "exactly one entry has this name" scan. It is shared by the cluster, service and host lookups.
- `PosixPath` (paths.dfy): `os.path.dirname` and two-argument `os.path.join`.
- `ModelTypes` (model.dfy): the entities and the error taxonomy.
- `Resolver` (resolver.dfy): cluster and service lookup, and list expansion.
- `Normalizer` (normalizer.dfy): descriptor computation.
- `Definition` (definition.dfy): `get_service` end to end, plus worked examples.

Jinja2 rendering followed by `yaml.load` of a cluster's service text is
foreign code. It enters the model as a function-valued parameter,
`expand: Expander`, which maps the service text and the optional `vars` to
either the parsed raw services or a failure. Every property below holds for
every such function. The command-line arguments are a plain value,
`Options`.

The model assumes Python 3.7 or later: dicts keep insertion order, and
`os.path.join` of a directory and `None` raises `TypeError`.

Source behaviour worth noting, all of which the model keeps:

- `volumes` is a mapping, split exactly like `ports`: the keys become
  `volumes` and the mapping is kept as `binds`.
- Without `-d`, an `images` key that is present but null raises the
  `TemplateFileError`, because the source catches only the `TypeError`. An
  `images` key that is absent raises an uncaught `KeyError`.
- When `ports` or `volumes` is absent, the service's fields are left as they
  were.
- Any `KeyError` during the host scan is swallowed, and `api_cfg` stays the
  empty dict `{}`. This covers:
  - no `hosts`;
  - no `host` on the service while `hosts` is non-empty;
  - some `hosts` entry without a `name`.
- With `hosts: []` and no `host`, the not-found handler itself reads
  `service['host']`, so a `KeyError` escapes.
- The duplicate-host message names the service, not the host.
- Without a cluster filter, stamping the services of a cluster that has no
  `name` raises `KeyError`. This happens only if that cluster has services.

## Model

| member | source | states |
|---|---|---|
| `Resolver.ClustersList` | shaddock/model.py:41-51 | Succeeds exactly when the document has `clusters` and every cluster has `services`. The result is the document's clusters, unchanged and in order. A missing `clusters` or `services` key is a `KeyError`. |
| `Resolver.GetCluster` | shaddock/model.py:53-71 | Returns a cluster iff no cluster lacks a name and exactly one cluster has the given name, and it returns that cluster. A nameless entry anywhere gives the missing-name error. Two or more matches give the duplicate error, and zero matches give not-found. The duplicate and not-found cases are stated with both directions of the if-and-only-if. |
| `Selection.Pick` | shaddock/model.py:56-66 | The shared scan. NameMissing iff some entry has no name. Ambiguous iff two distinct positions match. NoMatch iff no position matches. Unique iff exactly one position matches, and the item returned is the entry at that position. |
| `Selection.FilterTwoIff` | shaddock/model.py:58 | The comprehension has two or more elements exactly when two distinct positions of the list carry the name. |
| `Resolver.ExpandCluster` | shaddock/model.py:86-89 | Every service of a successful expansion carries the cluster's name as `cluster_name` and the cluster itself as its back-reference. |
| `Resolver.ExpandClusterOutcome` | shaddock/model.py:73-90 | A cluster without `services` is a `KeyError`, and an expander failure is passed on. Otherwise expansion succeeds iff the list is empty or the cluster has a name. When it succeeds, removing the stamps gives back exactly the expander's entries in declaration order. |
| `Resolver.StripStamp` | shaddock/model.py:86-89 | Stamping changes nothing but the two cluster fields: stripping the stamps is the identity on the parsed entries. |
| `Resolver.AllServices` | shaddock/model.py:95-100 | Every service in the unscoped list belongs to one of the document's clusters, and its `cluster_name` is that cluster's name. |
| `Resolver.AllServicesOutcome` | shaddock/model.py:97-100 | The unscoped list is built iff every cluster expands. Otherwise it fails with the error of the first cluster that does not, and every cluster before that one expanded. |
| `Resolver.AllServicesAppend` | shaddock/model.py:98-100 | Listing the clusters `a + b` gives `a`'s list followed by `b`'s, and the first failure wins. |
| `Resolver.AllServicesBlock` | shaddock/model.py:95-100 | In the unscoped list, cluster `i`'s services form one contiguous block. The services of the clusters declared before `i` come first, and those declared after `i` come after. |
| `Resolver.CollectServices` | shaddock/model.py:96-100 | The source's accumulate-and-append loop computes the same list and the same first error as the document-order reference definition. |
| `Resolver.ServicesList` | shaddock/model.py:92-104 | Without a filter, the list is every cluster's services in document order, each service from one of the document's clusters. With a filter, cluster-lookup errors are passed on, and otherwise the list is exactly the named cluster's expansion, every service belonging to that cluster. |
| `Resolver.FindService` | shaddock/model.py:106-126 | Returns a service iff every service is named and exactly one has the name, and it returns that one. Otherwise the result is the missing-name error, the duplicate error (two distinct positions) or the not-found error (no position), each stated both ways. |
| `Normalizer.ImagesDir` | shaddock/model.py:130-143 | A command-line directory is used verbatim. Otherwise the result succeeds iff the cluster's `images` has a value. It ends with that value, equals it when it is absolute, and otherwise is the model file's directory, then one separator unless that directory is empty or already ends in one, then the value. A null value is the missing-images `TemplateFileError`, and an absent key is a `KeyError`. |
| `Normalizer.ImagesDirBesideModel` | shaddock/model.py:134-136 | For a model file `dir/file` and a relative `images`, the images directory is `dir/images`. |
| `Normalizer.ImagesDirBareModel` | shaddock/model.py:134-136 | For a model file named without any directory, a relative `images` is used verbatim. |
| `PosixPath.Dirname` | shaddock/model.py:135 | The result is a prefix of the path, and it is non-empty iff the path has a separator. Only separators lie between the result and the last component, and the last component has none. The result ends without a separator unless it consists of separators only, and when everything up to the last separator is separators, all of them are kept. |
| `PosixPath.Join` | shaddock/model.py:134 | The result ends with the second part, and equals it when that part is absolute. Otherwise the result starts with the first part, and only separators lie between the parts: exactly one when the first part is non-empty and does not end in a separator, none otherwise. |
| `PosixPath.DirnameOfJoin` | shaddock/model.py:134-135 | Joining a directory with a plain file name and taking the dirname gives the directory back. |
| `Normalizer.ImageRepo` | shaddock/model.py:151-152 | The result is the longest prefix of the image without `:`. It is followed by `:` whenever it is shorter than the image. |
| `Normalizer.ImageRepoOfTagged` | shaddock/model.py:152 | `repo:tag` loses exactly its tag, and an untagged image is unchanged. |
| `AssocList.Keys` | shaddock/model.py:159 | The port (or volume) list has one entry per mapping entry, namely that entry's key, in mapping order. |
| `AssocList.LookupKeys` | shaddock/model.py:157-167 | With distinct keys, as in a dict, looking up each listed port (volume) in `port_bindings` (`binds`) finds the value declared with it. |
| `Normalizer.ResolveApi` | shaddock/model.py:169-196 | With `docker_url`, the result is the eight command-line fields and `hosts` is never read. Otherwise it covers every case: no `hosts` gives `{}`; `hosts: []` gives a `KeyError` or host-not-found; a missing `host` or an unnamed entry gives `{}`. With all entries named, the result succeeds iff exactly one entry matches, and then it is that entry; zero matches is host-not-found and two is the duplicate error. |
| `Normalizer.Normalize` | shaddock/model.py:128-197 | Errors come in source order: images directory, then image, then endpoint. A success keeps the service unchanged and has `path = images_dir + "/" + repo`. It splits `ports` and `volumes` into key lists and keeps the mappings verbatim, and leaves them unset when absent. |
| `Definition.GetService` | shaddock/model.py:106-197 | A success is the normalised unique in-scope match. It names the requested service, has an image, and stays in the filtered cluster. Its endpoint is the override iff `docker_url` is set, and a declared endpoint is an entry of the cluster's `hosts` carrying the service's `host` name. |
| `Definition.GetServiceOutcome` | shaddock/model.py:106-197 | A listing error is passed on. In the listed services, a nameless entry gives the missing-name error, no match gives not-found, and two matches give the duplicate error. Otherwise the result is the normalisation of the unique match. |
| `Definition.DuplicateAcrossClusters` | shaddock/model.py:109-117 | Without a cluster filter, one service name in two different clusters makes the lookup fail as a duplicate, or earlier as missing-name. |
| `Definition.OverrideIgnoresHosts` | shaddock/model.py:172-180 | With a command-line endpoint, replacing the cluster's `hosts` by any other list changes neither the outcome nor the endpoint. |
| `Definition.NovaExample` | shaddock/model.py:106-197 | Worked example: cluster `core` with service `nova` (image `shaddock/nova:latest`, host `node1`) resolves to path `/srv/shaddock/images/shaddock/nova`, with `node1`'s endpoint `tcp://node1:2375`. |
| `Definition.PortsExample` | shaddock/model.py:157-160 | Worked example: the ports mapping `{8774: …, 8775: …}` becomes `ports == [8774, 8775]`, and `port_bindings` is the mapping itself. |

## Left out

- Loading the model file and the `!include` constructor (`Loader`, and the file opening in `__init__`). They are file I/O and a PyYAML extension, so the parsed `Document` is the input. Includes resolve relative to the including file's directory, and nothing guards against circular includes.
- Jinja2 rendering and YAML parsing of service lists. They are foreign libraries, so they are the `expand` parameter. The `str()` of an already structured `services` value falls inside that parameter too.
- Resolver.ExpandCluster: the back-reference is the cluster as declared. The source's cluster dict has, by then, had its `services` text replaced by the parsed list. The model never reads that field through the back-reference.
- Re-calling methods on dicts the source has already mutated. That is an artefact of in-place mutation, not behaviour.
- YAML nulls and non-string values for `name`, `image`, `host` and `hosts`. They raise `AttributeError`/`TypeError` or fail to compare. Only `images` distinguishes null from absent, because the source treats the two differently.
- `ports` and `volumes` keys and values of other shapes. The source passes both mappings through untouched whatever they hold, but the model fixes the types: integer container ports with `(host_ip, host_port)` bindings, and path keys with bind specifications. A key such as `"8774/udp"` is outside the model.
- The keys of a parsed YAML mapping are distinct, but the association lists do not require it. `AssocList.LookupKeys` takes distinct keys as a premise.
- Keys of a service other than those a descriptor needs, such as environment. They are carried through untouched by the source.
- `fabfile.py`, `octopenstack/__init__.py` and `panama/view.py`: remote shell commands, entry-point plumbing and printing.
