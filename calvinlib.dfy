/** The calvinlib capability registry: a table of configured capabilities,
    loaded lazily on first use, and the list of objects handed out so far;
    a fixed-table stand-in for tests; and the process-wide singleton. */
module Calvinlib {
  import opened Common

  /** A JSON value as it appears in capability attributes and caller overrides. */
  datatype AttrValue =
    | Null
    | Bool(b: bool)
    | Int(i: int)
    | Str(s: string)
    | List(items: seq<AttrValue>)

  type Attrs = map<string, AttrValue>

  /** A JSON schema, left abstract: only the Validator below interprets it. */
  datatype Schema = Schema(id: string)

  /** A capability implementation class: its name and the `init_schema` its objects carry. */
  datatype PyClass = PyClass(className: string, initSchema: Schema)

  /** A loaded Python module, seen only through the classes it defines. */
  datatype PyModule = PyModule(classes: map<string, PyClass>)

  /** What `importlib.import_module` can load: dotted module name to module.
      A name outside the table is a failed import. */
  type ModuleTable = map<string, PyModule>

  /** `jsonschema.validate`, as a pass/fail predicate on a configuration and a schema. */
  type Validator = (Attrs, Schema) -> bool

  datatype NodeRef = NodeRef(id: string)

  /** One item of the configured `calvinlib.capabilities` list. */
  datatype ConfigEntry = ConfigEntry(name: string, modulePath: string, attributes: Option<Attrs>)

  /** A registry entry: `path` locates the implementation, `pymodule` caches it once loaded. */
  datatype Capability = Capability(name: string, path: string, attributes: Attrs, pymodule: Option<PyModule>)

  /** The exceptions `use` can raise. */
  datatype UseError =
    | NoSuchCapability(name: string)   // the name is not registered
    | ImportFailed(name: string)       // the module could not be imported
    | NoClassSegment(path: string)     // the path has no '.', so rsplit yields one part (IndexError)
    | NoEntry(name: string, path: string) // the module has no such class
    | InvalidConfig(name: string)      // the merged configuration fails the class's schema
    | KeyMissing(name: string)         // the test stand-in has nothing set for the name (KeyError)

  /** Package prefix under which capability implementations are imported. */
  const ImplementationPackage := "calvin.runtime.south.calvinlib."

  // ---------------------------------------------------------------------------
  // Registration (init)

  function NewEntry(c: ConfigEntry): Capability {
    Capability(c.name, c.modulePath, if c.attributes.Some? then c.attributes.value else map[], None)
  }

  /** One step of `init`'s loop: a blacklisted name is skipped, any other replaces its entry. */
  function Register(caps: map<string, Capability>, c: ConfigEntry, blacklist: seq<string>): map<string, Capability> {
    if c.name in blacklist then caps else caps[c.name := NewEntry(c)]
  }

  /** The table after `init` has registered `configured` in order on top of `caps`. */
  function Registered(caps: map<string, Capability>, configured: seq<ConfigEntry>, blacklist: seq<string>): (r: map<string, Capability>)
    ensures caps.Keys <= r.Keys
    decreases |configured|
  {
    if configured == [] then caps
    else Register(Registered(caps, configured[..|configured| - 1], blacklist), configured[|configured| - 1], blacklist)
  }

  /** The names `init` admits from `configured`: configured and not blacklisted. */
  ghost function AdmittedNames(configured: seq<ConfigEntry>, blacklist: seq<string>): set<string> {
    set i | 0 <= i < |configured| && configured[i].name !in blacklist :: configured[i].name
  }

  /** After registration the table holds exactly the earlier names and the admitted ones. */
  lemma {:induction false} RegisteredKeys(caps: map<string, Capability>, configured: seq<ConfigEntry>, blacklist: seq<string>)
    ensures Registered(caps, configured, blacklist).Keys == caps.Keys + AdmittedNames(configured, blacklist)
  {
    if configured != [] {
      var init := configured[..|configured| - 1];
      var last := configured[|configured| - 1];
      RegisteredKeys(caps, init, blacklist);
      var lastSet := if last.name in blacklist then {} else {last.name};
      assert AdmittedNames(configured, blacklist) == AdmittedNames(init, blacklist) + lastSet by {
        forall n | n in AdmittedNames(configured, blacklist)
          ensures n in AdmittedNames(init, blacklist) + lastSet
        {
          var i :| 0 <= i < |configured| && configured[i].name !in blacklist && configured[i].name == n;
          if i < |configured| - 1 {
            assert init[i] == configured[i];
          }
        }
        forall n | n in AdmittedNames(init, blacklist)
          ensures n in AdmittedNames(configured, blacklist)
        {
          var i :| 0 <= i < |init| && init[i].name !in blacklist && init[i].name == n;
          assert configured[i] == init[i];
        }
      }
    }
  }

  /** Starting from an empty table, a name is registered exactly when it was configured
      and is not blacklisted: this is `has_capability` and `list_capabilities` after `init`. */
  lemma InitRegistersAdmitted(configured: seq<ConfigEntry>, blacklist: seq<string>, n: string)
    ensures n in Registered(map[], configured, blacklist)
        <==> n !in blacklist && exists i :: 0 <= i < |configured| && configured[i].name == n
  {
    RegisteredKeys(map[], configured, blacklist);
    if n !in blacklist && exists i :: 0 <= i < |configured| && configured[i].name == n {
      var i :| 0 <= i < |configured| && configured[i].name == n;
      assert n in AdmittedNames(configured, blacklist);
    }
  }

  /** When a name is configured more than once, the last occurrence decides its entry;
      that entry starts unloaded with the configured attributes, defaulting to {}. */
  lemma {:induction false} RegisteredLaterWins(caps: map<string, Capability>, configured: seq<ConfigEntry>, blacklist: seq<string>, j: nat)
    requires j < |configured| && configured[j].name !in blacklist
    requires forall k :: j < k < |configured| ==> configured[k].name != configured[j].name
    ensures configured[j].name in Registered(caps, configured, blacklist)
    ensures var e := Registered(caps, configured, blacklist)[configured[j].name];
      && e.name == configured[j].name
      && e.path == configured[j].modulePath
      && e.pymodule == None
      && e.attributes == (if configured[j].attributes.Some? then configured[j].attributes.value else map[])
  {
    var init := configured[..|configured| - 1];
    if j < |configured| - 1 {
      forall k | j < k < |init| ensures init[k].name != init[j].name {
        assert init[k] == configured[k];
      }
      RegisteredLaterWins(caps, init, blacklist, j);
      assert init[j] == configured[j];
    }
  }

  /** Entries for names that no configured item admits keep their earlier value. */
  lemma {:induction false} RegisteredUntouched(caps: map<string, Capability>, configured: seq<ConfigEntry>, blacklist: seq<string>, n: string)
    requires n in caps
    requires n in blacklist || forall i :: 0 <= i < |configured| ==> configured[i].name != n
    ensures n in Registered(caps, configured, blacklist) && Registered(caps, configured, blacklist)[n] == caps[n]
  {
    if configured != [] {
      var init := configured[..|configured| - 1];
      forall i | 0 <= i < |init| && n !in blacklist ensures init[i].name != n {
        assert init[i] == configured[i];
      }
      RegisteredUntouched(caps, init, blacklist, n);
    }
  }

  // ---------------------------------------------------------------------------
  // Opening a capability (use)

  /** Python's `s.rsplit(".", 1)`: the whole string when it has no '.', otherwise the
      parts before and after its last '.'. */
  function RSplitOnce(s: string): (parts: seq<string>)
    ensures |parts| == 1 || |parts| == 2
    ensures |parts| == 1 <==> '.' !in s
    ensures |parts| == 1 ==> parts[0] == s
    ensures |parts| == 2 ==> parts[0] + "." + parts[1] == s && '.' !in parts[1]
  {
    if s == [] then [s]
    else if s[|s| - 1] == '.' then [s[..|s| - 1], ""]
    else
      var front := RSplitOnce(s[..|s| - 1]);
      assert s == s[..|s| - 1] + [s[|s| - 1]];
      if |front| == 1 then [s]
      else
        assert front[0] + "." + (front[1] + [s[|s| - 1]]) == (front[0] + "." + front[1]) + [s[|s| - 1]];
        [front[0], front[1] + [s[|s| - 1]]]
  }

  /** `capability["path"].rsplit(".", 1)[1]`: the class name, or None where the indexing fails. */
  function ClassSegment(path: string): (r: Option<string>)
    ensures r.Some? <==> '.' in path
    ensures r.Some? ==> '.' !in r.value
  {
    var parts := RSplitOnce(path);
    if |parts| == 2 then Some(parts[1]) else None
  }

  /** `dict(attributes, **kwargs)`: the defaults overlaid with the caller's overrides. */
  function Overlay(attributes: Attrs, kwargs: Attrs): (data: Attrs)
    ensures data.Keys == attributes.Keys + kwargs.Keys
    ensures forall k :: k in kwargs ==> data[k] == kwargs[k]
    ensures forall k :: k in attributes && k !in kwargs ==> data[k] == attributes[k]
  {
    attributes + kwargs
  }

  function Import(modules: ModuleTable, dotted: string): Option<PyModule> {
    if dotted in modules then Some(modules[dotted]) else None
  }

  /** What `use` creates when it succeeds: an object of `cls`, initialised with `config`. */
  datatype Created = Created(cls: PyClass, config: Attrs)

  /** The registry after a `use`, and its outcome. */
  datatype Plan = Plan(caps: map<string, Capability>, outcome: Result<Created, UseError>)

  /** `use(name, **kwargs)` on the registry `caps`, step by step as the code runs:
      lookup, load-and-cache when not yet loaded, class lookup, merge, validation. */
  function PlanUse(caps: map<string, Capability>, name: string, kwargs: Attrs, modules: ModuleTable, conforms: Validator): (p: Plan)
    ensures p.caps.Keys == caps.Keys
  {
    if name !in caps then Plan(caps, Failure(NoSuchCapability(name)))
    else
      var cap := caps[name];
      var loaded := if cap.pymodule.Some? then cap.pymodule else Import(modules, ImplementationPackage + cap.path);
      if loaded.None? then Plan(caps, Failure(ImportFailed(name)))
      else
        var caps' := if cap.pymodule.Some? then caps else caps[name := cap.(pymodule := loaded)];
        match ClassSegment(cap.path)
        case None => Plan(caps', Failure(NoClassSegment(cap.path)))
        case Some(className) =>
          if className !in loaded.value.classes then Plan(caps', Failure(NoEntry(name, cap.path)))
          else
            var cls := loaded.value.classes[className];
            var data := Overlay(cap.attributes, kwargs);
            if !conforms(data, cls.initSchema) then Plan(caps', Failure(InvalidConfig(name)))
            else Plan(caps', Success(Created(cls, data)))
  }

  /** An unregistered name fails and leaves the registry as it was. */
  lemma UseUnknownName(caps: map<string, Capability>, name: string, kwargs: Attrs, modules: ModuleTable, conforms: Validator)
    requires name !in caps
    ensures PlanUse(caps, name, kwargs, modules, conforms) == Plan(caps, Failure(NoSuchCapability(name)))
  {
  }

  /** `use` changes at most the module slot of the entry it opens, and only by filling
      it when it was empty; a failed import caches nothing. */
  lemma UseTouchesOnlyModuleSlot(caps: map<string, Capability>, name: string, kwargs: Attrs, modules: ModuleTable, conforms: Validator)
    ensures var p := PlanUse(caps, name, kwargs, modules, conforms);
      && p.caps.Keys == caps.Keys
      && (forall n :: n in caps && n != name ==> p.caps[n] == caps[n])
      && (name in caps ==> p.caps[name] == caps[name].(pymodule := p.caps[name].pymodule))
      && (name in caps && caps[name].pymodule.Some? ==> p.caps == caps)
      && (p.outcome == Failure(ImportFailed(name)) ==> p.caps == caps)
  {
  }

  /** Once the entry's module is cached, `use` no longer consults the importer:
      its result is the same whatever modules are importable. */
  lemma UseCachedLoadsNothing(caps: map<string, Capability>, name: string, kwargs: Attrs, m1: ModuleTable, m2: ModuleTable, conforms: Validator)
    requires name in caps && caps[name].pymodule.Some?
    ensures PlanUse(caps, name, kwargs, m1, conforms) == PlanUse(caps, name, kwargs, m2, conforms)
  {
  }

  /** Every path past a successful import caches the module in the entry, so a second
      `use` of that name performs no load; repeating a successful `use` with the
      same overrides changes nothing further and creates the same kind of object. */
  lemma UseCachesModule(caps: map<string, Capability>, name: string, kwargs: Attrs, modules: ModuleTable, conforms: Validator)
    requires name in caps
    ensures var p := PlanUse(caps, name, kwargs, modules, conforms);
      p.outcome != Failure(ImportFailed(name)) ==> p.caps[name].pymodule.Some?
    ensures var p := PlanUse(caps, name, kwargs, modules, conforms);
      p.outcome.Success? ==>
        forall other: ModuleTable :: PlanUse(p.caps, name, kwargs, other, conforms) == p
  {
    var p := PlanUse(caps, name, kwargs, modules, conforms);
    if p.outcome.Success? {
      forall other: ModuleTable ensures PlanUse(p.caps, name, kwargs, other, conforms) == p {
        UseCachedLoadsNothing(p.caps, name, kwargs, other, modules, conforms);
      }
    }
  }

  /** A successful `use` instantiates the class named by the path's last segment, from the
      module imported from the implementation package (or cached before), with the merged
      configuration, which the class's schema accepts. */
  lemma UseSuccessMeaning(caps: map<string, Capability>, name: string, kwargs: Attrs, modules: ModuleTable, conforms: Validator)
    requires PlanUse(caps, name, kwargs, modules, conforms).outcome.Success?
    ensures name in caps
    ensures var cap, p := caps[name], PlanUse(caps, name, kwargs, modules, conforms);
      && p.caps[name].pymodule.Some?
      && (cap.pymodule.Some? ==> p.caps[name].pymodule == cap.pymodule)
      && (cap.pymodule.None? ==> p.caps[name].pymodule == Import(modules, ImplementationPackage + cap.path))
    ensures var cap, p := caps[name], PlanUse(caps, name, kwargs, modules, conforms);
      var segment := RSplitOnce(cap.path);
      && |segment| == 2
      && segment[1] in p.caps[name].pymodule.value.classes
      && p.outcome.value.cls == p.caps[name].pymodule.value.classes[segment[1]]
    ensures var cap, c := caps[name], PlanUse(caps, name, kwargs, modules, conforms).outcome.value;
      && c.config == Overlay(cap.attributes, kwargs)
      && conforms(c.config, c.cls.initSchema)
  {
  }

  // ---------------------------------------------------------------------------
  // Removing an object

  /** Python's `list.remove(x)` with its ValueError swallowed: drop the first
      occurrence of `x`, or leave the list alone when there is none. */
  function RemoveFirst<T(==)>(s: seq<T>, x: T): (r: seq<T>)
    ensures |r| == if x in s then |s| - 1 else |s|
  {
    match FirstIndex(s, x)
    case None => s
    case Some(i) => s[..i] + s[i + 1..]
  }

  /** Removing deletes exactly one occurrence when present and nothing otherwise,
      keeping the order of what remains. */
  lemma RemoveFirstMeaning<T>(s: seq<T>, x: T)
    ensures x !in s ==> RemoveFirst(s, x) == s
    ensures x in s ==> |RemoveFirst(s, x)| == |s| - 1
    ensures x in s ==> multiset(RemoveFirst(s, x)) == multiset(s) - multiset{x}
    ensures x in s ==> exists i :: 0 <= i < |s| && s[i] == x && x !in s[..i]
                                   && RemoveFirst(s, x) == s[..i] + s[i + 1..]
  {
    if x in s {
      var i := FirstIndex(s, x).value;
      assert s == s[..i] + [x] + s[i + 1..];
      assert multiset(s) == multiset(s[..i]) + multiset{x} + multiset(s[i + 1..]);
      assert x !in s[..i] by {
        forall j | 0 <= j < i ensures s[..i][j] != x {
          assert s[..i][j] == s[j];
        }
      }
    }
  }

  /** The names, in some order and without repetition, of a set: Python's `dict.keys()`. */
  method ListKeys(keys: set<string>) returns (names: seq<string>)
    ensures (set n | n in names) == keys
    ensures forall i, j :: 0 <= i < j < |names| ==> names[i] != names[j]
    ensures |names| == |keys|
  {
    names := [];
    var rest := keys;
    while rest != {}
      invariant rest <= keys
      invariant |names| + |rest| == |keys|
      invariant (set n | n in names) == keys - rest
      invariant forall i, j :: 0 <= i < j < |names| ==> names[i] != names[j]
      decreases rest
    {
      var n :| n in rest;
      assert (set m | m in names + [n]) == (set m | m in names) + {n};
      names := names + [n];
      rest := rest - {n};
    }
  }

  // ---------------------------------------------------------------------------
  // The registry object

  /** An object a capability class created; `config` is what its `init` received. */
  class LibObject {
    const owner: CalvinLib
    const name: string
    const cls: PyClass
    var config: Attrs

    constructor (owner: CalvinLib, name: string, cls: PyClass)
      ensures this.owner == owner && this.name == name && this.cls == cls && config == map[]
    {
      this.owner := owner;
      this.name := name;
      this.cls := cls;
      config := map[];
    }

    /** The implementation's own `init(**data)`, seen only as recording its configuration. */
    method Init(data: Attrs)
      modifies this
      ensures config == data
    {
      config := data;
    }
  }

  class CalvinLib {
    var node: Option<NodeRef>
    var capabilities: map<string, Capability>
    var objects: seq<LibObject>

    constructor ()
      ensures node == None && capabilities == map[] && objects == []
    {
      node := None;
      capabilities := map[];
      objects := [];
    }

    /** Registers every configured capability not on the blacklist, in order. */
    method Init(node: NodeRef, configured: seq<ConfigEntry>, blacklist: seq<string>)
      modifies this
      ensures this.node == Some(node)
      ensures capabilities == Registered(old(capabilities), configured, blacklist)
      ensures objects == old(objects)
    {
      this.node := Some(node);
      for i := 0 to |configured|
        invariant this.node == Some(node)
        invariant capabilities == Registered(old(capabilities), configured[..i], blacklist)
        invariant objects == old(objects)
      {
        var capability := configured[i];
        if capability.name !in blacklist {
          capabilities := capabilities[capability.name := Capability(
            capability.name,
            capability.modulePath,
            if capability.attributes.Some? then capability.attributes.value else map[],
            None)];
        }
        assert configured[..i + 1][..i] == configured[..i];
      }
      assert configured[..|configured|] == configured;
    }

    /** Opens capability `name` with overrides `kwargs`. On success the new object,
        and nothing else, is appended to `objects`; every failure leaves `objects`
        as it was. The registry changes as PlanUse says. */
    method Use(name: string, kwargs: Attrs, modules: ModuleTable, conforms: Validator)
      returns (r: Result<LibObject, UseError>)
      modifies this
      ensures node == old(node)
      ensures capabilities == PlanUse(old(capabilities), name, kwargs, modules, conforms).caps
      ensures PlanUse(old(capabilities), name, kwargs, modules, conforms).outcome.Failure? ==>
        && r == Failure(PlanUse(old(capabilities), name, kwargs, modules, conforms).outcome.error)
        && objects == old(objects)
      ensures PlanUse(old(capabilities), name, kwargs, modules, conforms).outcome.Success? ==>
        && r.Success? && fresh(r.value)
        && r.value.owner == this && r.value.name == name
        && r.value.cls == PlanUse(old(capabilities), name, kwargs, modules, conforms).outcome.value.cls
        && r.value.config == PlanUse(old(capabilities), name, kwargs, modules, conforms).outcome.value.config
        && objects == old(objects) + [r.value]
    {
      if name !in capabilities {
        return Failure(NoSuchCapability(name));
      }
      var capability := capabilities[name];
      var pymodule := capability.pymodule;
      if pymodule.None? {
        pymodule := Import(modules, ImplementationPackage + capability.path);
        if pymodule.None? {
          return Failure(ImportFailed(name));
        }
        capability := capability.(pymodule := pymodule);
        capabilities := capabilities[name := capability];
      }
      var className := ClassSegment(capability.path);
      if className.None? {
        return Failure(NoClassSegment(capability.path));
      }
      if className.value !in pymodule.value.classes {
        return Failure(NoEntry(name, capability.path));
      }
      var pyclass := pymodule.value.classes[className.value];
      var obj := new LibObject(this, name, pyclass);
      var data := Overlay(capability.attributes, kwargs);
      if !conforms(data, pyclass.initSchema) {
        return Failure(InvalidConfig(name));
      }
      obj.Init(data);
      objects := objects + [obj];
      return Success(obj);
    }

    /** `has_capability`: the name is registered. */
    predicate HasCapability(requirement: string): (r: bool)
      reads this
      ensures r <==> requirement in capabilities.Keys
    {
      requirement in capabilities
    }

    /** The registered names, each once, in the dictionary's order. */
    method ListCapabilities() returns (names: seq<string>)
      ensures (set n | n in names) == capabilities.Keys
      ensures forall i, j :: 0 <= i < j < |names| ==> names[i] != names[j]
      ensures |names| == |capabilities|
    {
      names := ListKeys(capabilities.Keys);
    }

    /** Removes one occurrence of `obj`; an absent object is only logged. */
    method Remove(obj: LibObject)
      modifies this
      ensures objects == RemoveFirst(old(objects), obj)
      ensures capabilities == old(capabilities) && node == old(node)
    {
      match FirstIndex(objects, obj)
      case None =>
      case Some(i) =>
        objects := objects[..i] + objects[i + 1..];
    }
  }

  /** The test stand-in: a fixed table filled by `Set`, with the same queries. */
  class MockCalvinLib {
    var caps: map<string, LibObject>
    var node: Option<NodeRef>

    constructor ()
      ensures caps == map[] && node == None
    {
      caps := map[];
      node := None;
    }

    method Set(cap: string, obj: LibObject)
      modifies this
      ensures caps == old(caps)[cap := obj] && node == old(node)
    {
      caps := caps[cap := obj];
    }

    /** `has_capability` on the stand-in: the name has been set. */
    predicate HasCapability(req: string): (r: bool)
      reads this
      ensures r <==> req in caps.Keys
    {
      req in caps
    }

    method ListCapabilities() returns (names: seq<string>)
      ensures (set n | n in names) == caps.Keys
      ensures forall i, j :: 0 <= i < j < |names| ==> names[i] != names[j]
      ensures |names| == |caps|
    {
      names := ListKeys(caps.Keys);
    }

    /** Returns the object last set for `cap`; an unset name raises KeyError. */
    method Use(cap: string, kwargs: Attrs) returns (r: Result<LibObject, UseError>)
      ensures cap in caps ==> r == Success(caps[cap])
      ensures cap !in caps ==> r == Failure(KeyMissing(cap))
    {
      if cap in caps {
        r := Success(caps[cap]);
      } else {
        r := Failure(KeyMissing(cap));
      }
    }

    /** Does nothing. */
    method Remove(obj: LibObject)
      ensures caps == old(caps) && node == old(node)
    {
    }

    /** The `init` inherited from CalvinLib: it records the node, then stores into a
        `capabilities` table the stand-in never created, which raises on the first
        configured name that is not blacklisted. */
    method Init(node: NodeRef, configured: seq<ConfigEntry>, blacklist: seq<string>) returns (ok: bool)
      modifies this
      ensures this.node == Some(node) && caps == old(caps)
      ensures ok <==> forall i :: 0 <= i < |configured| ==> configured[i].name in blacklist
    {
      this.node := Some(node);
      ok := true;
      for i := 0 to |configured|
        invariant ok <==> forall k :: 0 <= k < i ==> configured[k].name in blacklist
        invariant caps == old(caps)
      {
        if configured[i].name !in blacklist {
          return false;
        }
      }
    }
  }

  /** The instance `get_calvinlib` hands out. */
  datatype Instance = Real(lib: CalvinLib) | Mock(mock: MockCalvinLib)

  /** The module-level globals `_calvinlib` and `TESTING`. */
  class LibraryGlobals {
    var testing: bool
    var calvinlib: Option<Instance>

    constructor ()
      ensures !testing && calvinlib == None
    {
      testing := false;
      calvinlib := None;
    }

    /** Creates the singleton on the first call, a stand-in exactly when `testing` is
        set at that call, and returns the same instance on every later call. */
    method GetCalvinlib() returns (inst: Instance)
      modifies this
      ensures testing == old(testing)
      ensures calvinlib == Some(inst)
      ensures old(calvinlib).Some? ==> inst == old(calvinlib).value
      ensures old(calvinlib).None? ==> (inst.Mock? <==> testing)
      ensures old(calvinlib).None? && inst.Real? ==>
        fresh(inst.lib) && inst.lib.capabilities == map[] && inst.lib.objects == [] && inst.lib.node == None
      ensures old(calvinlib).None? && inst.Mock? ==> fresh(inst.mock) && inst.mock.caps == map[]
    {
      if calvinlib.None? && testing {
        var mock := new MockCalvinLib();
        calvinlib := Some(Mock(mock));
      }
      if calvinlib.None? {
        var lib := new CalvinLib();
        calvinlib := Some(Real(lib));
      }
      inst := calvinlib.value;
    }
  }

  /** Two calls in a row hand out the same instance. */
  method GetCalvinlibTwice(g: LibraryGlobals) returns (a: Instance, b: Instance)
    modifies g
    ensures a == b
  {
    a := g.GetCalvinlib();
    b := g.GetCalvinlib();
  }
}
