# A Dafny model of three pieces of the Calvin actor runtime

This project models three sequential parts of Calvin (calvin-base) and proves
properties of them:

- **The calvinlib capability registry** (module `Calvinlib`, `calvinlib.dfy`).
  `CalvinLib` is a class with the same three fields as the registry:
  - `node`
  - `capabilities`, a map from capability name to its entry
  - `objects`, the list of objects handed out so far

  `Init` registers the configured capabilities and skips blacklisted names.
  `Use` looks the name up, and on first use loads and caches the module. It then
  finds the class, merges the default attributes with the caller's overrides,
  validates the result and appends the new object. `Remove` deletes one
  occurrence of an object and ignores absent ones. `MockCalvinLib` is the
  fixed-table stand-in used in tests. `LibraryGlobals` holds the module globals
  `_calvinlib` and `TESTING`, and `GetCalvinlib` is the memoised singleton.
  Each state-changing method is tied to a pure function (`Registered`, `PlanUse`,
  `RemoveFirst`), and the lemmas state what the registry promises about those functions.
- **The StaticHBar chart actor** (module `StaticHBarActor`, `static_hbar.dfy`).
  The actor is a class. It holds:
  - the managed fields `dimension`, `labels`, `values` and the chart handle
  - the unmanaged `base64` encoder
  - its two inport queues and its one outport queue

  The actions `handle_response` and `send_request` have their port conditions
  and their state guards on the chart handle. The next action is picked by the
  declared `action_priority`, and `FireOnce` runs one selection-and-firing step.
  `Restore` rebuilds the actor from its managed state and runs `did_migrate`.
- **The pure parts of the CoAP control surface** (module `CoapServer`,
  `coap_server.dfy`):
  - The actor-id formatter turns a bare 32-hex-digit id into the 8-4-4-4-12
    UUID text form of section 3 of RFC 4122.
  - The capability listing appends the calvinlib names to the calvinsys names.
  - The link-format payload is a ','-join of the resource list.
  - The resource tree built by `CoAPServer`'s constructor is modelled as objects
    with child maps, updated by `putChild`.

`Common` (`common.dfy`) holds `Option`, `Result` and `FirstIndex`, the first
position of a value in a sequence.

Foreign calls become parameters:
- `importlib.import_module` is a `ModuleTable`, a partial map from dotted module
  name to module. A name outside the map is a failed import.
- `jsonschema.validate` is a `Validator` predicate.
- `calvinsys.open` is the `ChartHandle` passed to the actor's constructor.
- `calvinlib.use('base64')` is the `Base64Lib` passed to `Setup`. Its encoding
  function is left uninterpreted.
- The configuration comes in as two lists: the capability entries and the blacklist.

What the registry code does, as modelled:
- `init` does not reject a name configured twice; its last entry wins.
- `list_capabilities` returns the dictionary's keys as a list, in dictionary
  order. It is modelled as a repetition-free sequence whose elements are the
  registered names, with no order fixed.
- Nothing makes the first load safe under concurrent use.

After `init`, what `has_capability` answers is also stated by
`InitRegistersAdmitted` and `RegisteredKeys`.

## Model

| member | source | states |
|---|---|---|
| `Common.FirstIndex` | calvin/runtime/north/calvinlib.py:112 | The index `list.remove` deletes at: the first position holding the value, with no earlier occurrence. It is None exactly when the value is absent. |
| `Common.FirstIndexAfterPrefix` | calvin/runtime/north/plugins/coap/coap_server.py:73 | A value placed right after a prefix that does not contain it is first found at the prefix's length. |
| `Calvinlib.Registered` | calvin/runtime/north/calvinlib.py:59-66 | The table `init`'s loop leaves: each configured entry whose name is not blacklisted is stored in turn on top of the earlier table. It never drops a name. Its properties are stated by `RegisteredKeys`, `InitRegistersAdmitted`, `RegisteredLaterWins` and `RegisteredUntouched`. |
| `Calvinlib.RegisteredKeys` | calvin/runtime/north/calvinlib.py:57-66 | After `init`, the registered names are exactly the earlier names plus every configured name that is not blacklisted. |
| `Calvinlib.InitRegistersAdmitted` | calvin/runtime/north/calvinlib.py:94-105 | From an empty registry, a name is registered, so `has_capability` holds and `list_capabilities` lists it, iff it was configured and is not blacklisted. |
| `Calvinlib.RegisteredLaterWins` | calvin/runtime/north/calvinlib.py:59-66 | For a name configured several times, the last non-blacklisted occurrence decides its entry. That entry has `module` None, the configured path, and the configured attributes, or {} when none were given. |
| `Calvinlib.RegisteredUntouched` | calvin/runtime/north/calvinlib.py:59-66 | An existing entry whose name is blacklisted or not configured keeps its value through `init`. |
| `Calvinlib.CalvinLib.Init` | calvin/runtime/north/calvinlib.py:52-66 | Records the node. The registry becomes the configured entries registered in order on top of the old one. `objects` is unchanged. |
| `Calvinlib.RSplitOnce` | calvin/runtime/north/calvinlib.py:82 | `rsplit(".", 1)`: one part, the whole path, exactly when there is no '.'. Otherwise two parts that rejoin with '.' to the path, the second part containing no '.'. |
| `Calvinlib.ClassSegment` | calvin/runtime/north/calvinlib.py:82-83 | The class name `getattr` looks up, `rsplit(".", 1)[1]`. It exists exactly when the path holds a '.', and it contains no '.'. With no '.', the indexing fails and `use` reports NoClassSegment. |
| `Calvinlib.Overlay` | calvin/runtime/north/calvinlib.py:87 | The merged configuration has the keys of both sides. A key given by the caller takes the caller's value; any other key takes the default. |
| `Calvinlib.PlanUse` | calvin/runtime/north/calvinlib.py:73-89 | `use` step by step: the table afterwards and the outcome. The outcome is an error or the class and configuration of the new object. The table keeps its names. Its properties are stated by `UseUnknownName`, `UseTouchesOnlyModuleSlot`, `UseCachedLoadsNothing`, `UseCachesModule` and `UseSuccessMeaning`, and `CalvinLib.Use` is proved against it. |
| `Calvinlib.UseUnknownName` | calvin/runtime/north/calvinlib.py:73-75 | `use` of an unregistered name fails with NoSuchCapability and leaves the registry as it was. |
| `Calvinlib.UseTouchesOnlyModuleSlot` | calvin/runtime/north/calvinlib.py:76-81 | `use` keeps every name and every other entry, and changes at most the opened entry's module slot. A cached entry is not changed, and a failed import caches nothing. |
| `Calvinlib.UseCachedLoadsNothing` | calvin/runtime/north/calvinlib.py:76-81 | Once the module is cached, the outcome of `use` does not depend on what is importable: no further load happens. |
| `Calvinlib.UseCachesModule` | calvin/runtime/north/calvinlib.py:76-91 | Past a successful import, the module is stored in the entry. After a successful `use`, repeating it with any importer leaves the registry unchanged and gives the same result. |
| `Calvinlib.UseSuccessMeaning` | calvin/runtime/north/calvinlib.py:76-89 | On success, the module is the one imported from `calvin.runtime.south.calvinlib.` plus the path, or the cached one. The class is the path's segment after its last '.'. The object's configuration is the overlay, and it passes the class's schema. |
| `Calvinlib.CalvinLib.Use` | calvin/runtime/north/calvinlib.py:69-91 | Errors: NoSuchCapability, ImportFailed, NoClassSegment (rsplit gives one part), NoEntry, InvalidConfig. On any failure `objects` is unchanged. On success exactly one fresh object, with this name, class and configuration, is appended and returned. |
| `Calvinlib.RemoveFirst` | calvin/runtime/north/calvinlib.py:111-114 | `list.remove` with the ValueError swallowed. The list is one shorter when the object occurs and keeps its length otherwise. `RemoveFirstMeaning` states which element goes. |
| `Calvinlib.RemoveFirstMeaning` | calvin/runtime/north/calvinlib.py:107-114 | Removing an absent object changes nothing. Removing a present one deletes its first occurrence only: length drops by one, the multiset loses one copy, and the order of the rest is kept. |
| `Calvinlib.CalvinLib.Remove` | calvin/runtime/north/calvinlib.py:107-114 | `objects` becomes the list with the first occurrence of the object removed, or stays unchanged when it is absent. The registry and node are unchanged. |
| `Calvinlib.CalvinLib.HasCapability` | calvin/runtime/north/calvinlib.py:94-99 | `has_capability` holds iff the name is registered, that is, a key of `capabilities`. |
| `Calvinlib.ListKeys` | calvin/runtime/north/calvinlib.py:105 | `dict.keys()`: a repetition-free list whose elements are exactly the keys. |
| `Calvinlib.CalvinLib.ListCapabilities` | calvin/runtime/north/calvinlib.py:101-105 | Lists every registered name exactly once, and nothing else. |
| `Calvinlib.CalvinLib.constructor` | calvin/runtime/north/calvinlib.py:47-50 | A new registry has no node, no capabilities and no objects. |
| `Calvinlib.LibObject.Init` | calvin/runtime/north/calvinlib.py:89 | The object records the configuration its `init` received. |
| `Calvinlib.LibObject.constructor` | calvin/runtime/north/calvinlib.py:86 | `pyclass(calvinlib=self, name=name)`: the new object belongs to the registry, carries the capability name and the class found, and has received no configuration yet. |
| `Calvinlib.MockCalvinLib.constructor` | calvin/runtime/north/calvinlib.py:117-118 | The stand-in starts with an empty table. |
| `Calvinlib.MockCalvinLib.Set` | calvin/runtime/north/calvinlib.py:120-121 | `set` maps the name to the given object, replacing any earlier one. |
| `Calvinlib.MockCalvinLib.HasCapability` | calvin/runtime/north/calvinlib.py:123-124 | The stand-in's `has_capability` holds iff the name has been `set`. |
| `Calvinlib.MockCalvinLib.ListCapabilities` | calvin/runtime/north/calvinlib.py:126-127 | Lists every name in the stand-in's table exactly once. |
| `Calvinlib.MockCalvinLib.Use` | calvin/runtime/north/calvinlib.py:129-130 | Returns the object last set for the name, or fails with KeyError when none was set. |
| `Calvinlib.MockCalvinLib.Remove` | calvin/runtime/north/calvinlib.py:132-133 | Changes nothing. |
| `Calvinlib.MockCalvinLib.Init` | calvin/runtime/north/calvinlib.py:52-66 | The inherited `init` records the node. It succeeds iff every configured name is blacklisted, because the stand-in has no `capabilities` table to store into. |
| `Calvinlib.LibraryGlobals.constructor` | calvin/runtime/north/calvinlib.py:25-27 | No instance exists yet and `TESTING` is false. |
| `Calvinlib.LibraryGlobals.GetCalvinlib` | calvin/runtime/north/calvinlib.py:29-38 | The first call creates the instance: a stand-in iff `TESTING` is set, otherwise a fresh empty registry. Every later call returns that same instance. |
| `Calvinlib.GetCalvinlibTwice` | calvin/runtime/north/calvinlib.py:29-38 | Two consecutive calls return the same instance. |
| `StaticHBarActor.Repeat` | calvin/actorstore/systemactors/chart/StaticHBar.py:41-42 | `n * [x]`: `n` copies of `x`, or none when `n` is not positive. |
| `StaticHBarActor.ChartHandle.Open` | calvin/actorstore/systemactors/chart/StaticHBar.py:43 | The opened handle remembers its capability and parameters, and has written nothing yet. |
| `StaticHBarActor.ChartHandle.Read` | calvin/actorstore/systemactors/chart/StaticHBar.py:56 | Allowed only when `can_read` holds. Returns the oldest waiting image and removes it, changing nothing else. |
| `StaticHBarActor.ChartHandle.Write` | calvin/actorstore/systemactors/chart/StaticHBar.py:64 | Allowed only when `can_write` holds. Appends the request and changes nothing else. |
| `StaticHBarActor.StaticHBar.Init` | calvin/actorstore/systemactors/chart/StaticHBar.py:38-45 | `dimension` defaults to 8, and `labels` and `values` hold `dimension` empty strings and zeros. The chart is the handle opened for `chart.static.hbar`. `setup` has installed the encoder, and the ports are empty. |
| `StaticHBarActor.StaticHBar.Setup` | calvin/actorstore/systemactors/chart/StaticHBar.py:47-48 | Installs the base64 encoder and changes no managed field and no port. |
| `StaticHBarActor.StaticHBar.DidMigrate` | calvin/actorstore/systemactors/chart/StaticHBar.py:50-51 | Re-establishes the unmanaged encoder, keeping the managed state and the ports. |
| `StaticHBarActor.StaticHBar.Restore` | calvin/actorstore/systemactors/chart/StaticHBar.py:38-51 | After the managed fields are written back and `did_migrate` runs, the managed state equals the saved one and the encoder is in place again. |
| `StaticHBarActor.StaticHBar.Managed` | calvin/actorstore/systemactors/chart/StaticHBar.py:38 | The managed state is exactly the four `@manage` fields `dimension`, `labels`, `values` and `_chart`, in that order; the encoder and the port queues are not part of it. |
| `StaticHBarActor.FirstEnabled` | calvin/actorstore/systemactors/chart/StaticHBar.py:66 | Selection by priority: the first enabled action in the declared order, with none enabled before it. It is None exactly when no action is enabled. |
| `StaticHBarActor.StaticHBar.Select` | calvin/actorstore/systemactors/chart/StaticHBar.py:53-66 | `handle_response` is picked iff `can_read` holds and `b64image` has room. `send_request` is picked iff `can_write` holds, both inports hold a token and `handle_response` is not enabled. Nothing is picked iff neither is enabled. |
| `StaticHBarActor.StaticHBar.HandleResponseEnabled` | calvin/actorstore/systemactors/chart/StaticHBar.py:53-54 | `handle_response` is enabled iff the chart can be read (an image is waiting) and `b64image` has room. |
| `StaticHBarActor.StaticHBar.SendRequestEnabled` | calvin/actorstore/systemactors/chart/StaticHBar.py:61-62 | `send_request` is enabled iff the chart can be written and both `values` and `labels` hold a token. |
| `StaticHBarActor.StaticHBar.FireOnce` | calvin/actorstore/systemactors/chart/StaticHBar.py:53-64 | Fires what `Select` picks. `handle_response` consumes no token, reads one image and emits its encoding on `b64image`. `send_request` consumes one token from each inport and writes a record of those two tokens to the chart. When nothing fires, nothing changes. |
| `StaticHBarActor.StaticHBar.HandleResponseBody` | calvin/actorstore/systemactors/chart/StaticHBar.py:55-59 | Returns the encoding of the image read, and the chart loses exactly that image. |
| `StaticHBarActor.StaticHBar.SendRequestBody` | calvin/actorstore/systemactors/chart/StaticHBar.py:63-64 | The chart receives one request whose `labels` and `values` are the two tokens. |
| `StaticHBarActor.HandleResponseHasPriority` | calvin/actorstore/systemactors/chart/StaticHBar.py:66 | When the chart can be read and the output has room, `handle_response` is selected whatever the inports hold. |
| `StaticHBarActor.DeclaredTest` | calvin/actorstore/systemactors/chart/StaticHBar.py:69-76 | With empty inports, a chart read yielding "dummy", and "dummy" encoding to "ZHVtbXk=": only `handle_response` fires, once, and the outport holds ["ZHVtbXk="]. |
| `CoapServer.FormatActorId` | calvin/runtime/north/plugins/coap/coap_server.py:33 | The formatted id is exactly four characters longer than the bare id. |
| `CoapServer.FormatActorIdPieces` | calvin/runtime/north/plugins/coap/coap_server.py:33 | With clamped slicing, the five slices rejoin to the id, and each has the clamped length. |
| `CoapServer.DashJoinParts` | calvin/runtime/north/plugins/coap/coap_server.py:33 | In five pieces joined by '-', each piece sits between its neighbouring dashes. |
| `CoapServer.FormatActorIdDashes` | calvin/runtime/north/plugins/coap/coap_server.py:33 | The four inserted characters are '-' at the clamped positions 8, 12+1, 16+2 and 20+3. |
| `CoapServer.FormatActorIdRoundTrip` | calvin/runtime/north/plugins/coap/coap_server.py:33 | Deleting the four inserted dashes gives back the id exactly, so its characters are kept in order. |
| `CoapServer.FormatActorIdInjective` | calvin/runtime/north/plugins/coap/coap_server.py:33 | Different ids give different keys. |
| `CoapServer.FormatActorIdUuidLayout` | calvin/runtime/north/plugins/coap/coap_server.py:33 | A 32-character id becomes 36 characters, with '-' at 8, 13, 18 and 23 and the id's groups of 8, 4, 4, 4 and 12 between them. A hexadecimal id becomes the UUID text form of section 3 of RFC 4122. |
| `CoapServer.CapabilityListing` | calvin/runtime/north/plugins/coap/coap_server.py:60 | The listing is the calvinsys list followed by the calvinlib list. Its length is the sum of the two, and both orders are kept. |
| `CoapServer.RenderCapabilities` | calvin/runtime/north/plugins/coap/coap_server.py:59-62 | The rendered list starts with the calvinsys names. Its remainder lists each name of whichever calvinlib instance (registry or stand-in) is in use exactly once, so the list's length is the calvinsys count plus the number of calvinlib names. |
| `CoapServer.JoinComma` | calvin/runtime/north/plugins/coap/coap_server.py:73 | `','.join(data)`, the link-format payload. With two or more entries there is a ','. `JoinCommaSplits` and `JoinCommaLength` state its round trip and its length. |
| `CoapServer.SplitComma` | calvin/runtime/north/plugins/coap/coap_server.py:73 | `split(',')` always yields at least one part. It is the inverse used for the join. |
| `CoapServer.SplitCommaAfter` | calvin/runtime/north/plugins/coap/coap_server.py:73 | A comma-free part followed by ',' splits off as the first part. |
| `CoapServer.JoinCommaSplits` | calvin/runtime/north/plugins/coap/coap_server.py:71-73 | When the resource list is non-empty and no entry contains ',', splitting the link-format payload at ',' gives back the list. An empty list joins to "", which splits to one empty entry. |
| `CoapServer.JoinCommaLength` | calvin/runtime/north/plugins/coap/coap_server.py:73 | The payload is as long as all entries together plus one separator between each pair of neighbours. |
| `CoapServer.Resource.constructor` | calvin/runtime/north/plugins/coap/coap_server.py:12-15 | A resource starts with its kind, its visibility and no children. |
| `CoapServer.Resource.PutChild` | calvin/runtime/north/plugins/coap/coap_server.py:93 | `putChild` maps the segment to the child and leaves the other children alone. |
| `CoapServer.AttachWellKnown` | calvin/runtime/north/plugins/coap/coap_server.py:92-95 | `.well-known` goes under the root, then gets its single child `core`, which refers back to the root. Both are invisible, and `core` starts with no children. |
| `CoapServer.AttachRoutes` | calvin/runtime/north/plugins/coap/coap_server.py:96-99 | Adds the visible `actor`, `actors`, `capabilities` and `id` resources, each fresh and of its own kind, keeping the other children. Each of the four starts with no children. |
| `CoapServer.CoAPServer.constructor` | calvin/runtime/north/plugins/coap/coap_server.py:90-99 | The root has exactly the children '.well-known', 'actor', 'actors', 'capabilities' and 'id', each of its kind. '.well-known' has exactly the child 'core', which refers back to the root. 'core' and the four top-level resources start with no children, so what lies under 'actor' is decided by its `getChild` alone. The root, '.well-known' and 'core' are invisible; the four top-level resources are visible and new. |
| `CoapServer.ActorGetChild` | calvin/runtime/north/plugins/coap/coap_server.py:17-18 | Any segment under `actor` yields a new id resource carrying that segment. |
| `CoapServer.ActorKey` | calvin/runtime/north/plugins/coap/coap_server.py:32-33 | The key handed to `get_actor`: the dashed id, four characters longer, from which stripping the dashes gives back the id. |
| `CoapServer.ResolveActor` | calvin/runtime/north/plugins/coap/coap_server.py:17-34 | For any segment under the server's `actor` resource, the id resource's storage key is the dashed form of that segment. |

## Left out

- Dynamic import and schema validation are not modelled. `importlib.import_module` is an importable-module table, and `jsonschema.validate` is a pass/fail predicate; neither is interpreted.
- Two dead checks are folded into the errors they stand next to. `import_module` raises rather than returning None, so `if pymodule is None` is subsumed by ImportFailed. `getattr` raises on a missing class, so `if not pyclass` and the AttributeError are both the NoEntry error.
- Python exception classes are not distinguished. The `UseError` constructors name the failure paths, not the exact exception types.
- The implementation classes are not modelled. The object is created as `pyclass(calvinlib=self, name=name)` and its `init(**data)` is modelled as recording `data`; what an implementation does with its configuration is outside the model.
- Configuration loading, logging and the thread-safety of the singleton's first use are left out. The configuration becomes two plain parameters, and logging has no effect on the modelled state.
- The generic firing engine is not modelled. The `condition`, `stateguard` and `manage` decorators live in calvin/actor/actor.py, which is not part of this model. Only the selection-and-firing rule StaticHBar's declarations imply is modelled: priority order, one token per listed port, and the chart guards. The `b64image` outport's room is a boolean supplied by the caller.
- `ChartHandle.Write`: the handle's `writable` flag stays fixed when a request is written, as part of the handle abstraction. A real chart's `can_write` may change after a write, so `FireOnce`'s frame on `writable` holds only for this abstraction.
- `ChartHandle.Read`, `ChartHandle.Write`: misuse (reading when not readable, writing when not writable) is excluded by precondition rather than modelled as an error, since the chart's calvinsys implementation is not part of this model and the actor never calls them unguarded.
- `DeclaredTest`: the actor's test mocks the capability `io.chart` with one read of "dummy", while the actor opens `chart.static.hbar`. The model takes those reads to feed the opened chart handle, whose `images` start as ["dummy"].
- Chart rendering and base64 encoding are not modelled. New images appear in the handle's `images` only through its constructor or the environment. The encoder is an uninterpreted function, and only the declared test pins one of its values.
- StaticHBar's `requires` list is not modelled as data. It is checked by the runtime before the actor is placed, which is not part of this model. The two capabilities it names appear as `ChartCapability`, the capability the chart handle must be opened for, and as the `Base64Lib` encoder. The `@manage` list is the datatype `ManagedState`, whose fields are the four names in order.
- CoAP networking and asynchrony are not modelled: `listenUDP`, `Coap`, `Endpoint`, `Deferred`, `callLater`, `succeed`, the storage callback, `Message`, and the content-format option. JSON serialisation (`dumps`) is not modelled either.
- The `actors` and `id` resources are in the tree, but their `render_GET` payloads are not modelled. Those payloads (`list_actors` and the node id as JSON) consist only of such serialisation.
- `FormatActorId` slices the id by character. In this Python 2 code `self.id` is a byte string, so the two differ only on ids with non-ASCII characters.
- `generateResourceList` belongs to the CoAP library, so the resource list is an input to the join. The library's default visibility for plain resources is taken as false.
- The link-format join is given as the function `JoinComma`; its properties are the split round trip and the length lemma.
- calvin/runtime/north/control_apis/coap_api.py is not part of this model: it only sets up a network route.
