/**
 * The addon registry of Pearl's AddonManager: three dictionaries keyed by
 * addon name (loaded modules, active modules, metadata) and the operations
 * that move a name through them.  Importing a module and calling an addon's
 * initialize()/shutdown() are outside the model: each operation takes their
 * outcome as a parameter, so every success and failure path is covered.
 */
module Addons {

  datatype Option<T> = None | Some(value: T)

  /** What the manager inspects of an imported addon module. */
  datatype AddonModule = AddonModule(
    hasInitialize: bool,          // a callable `initialize`
    hasShutdown: bool,            // a callable `shutdown`
    version: Option<string>,      // __version__
    author: Option<string>,       // __author__
    doc: Option<string>,          // __doc__ (None: no docstring)
    dependencies: seq<string>,    // __dependencies__ (absent: empty)
    attributes: set<string>)      // every attribute name, for execute

  datatype Metadata = Metadata(
    name: string,
    version: string,
    author: string,
    description: Option<string>,  // None when the module has no docstring
    dependencies: seq<string>)

  datatype Status = Active | Inactive

  /** The dictionary get_addon_info builds (without the inspect-based listings). */
  datatype Info = Info(
    name: string,
    version: string,
    author: string,
    description: Option<string>,
    status: Status,
    dependencies: seq<string>)

  datatype AddonError =
    | NotLoaded(name: string)                        // ValueError in get_addon_info
    | NotActive(name: string)                        // ValueError in execute_addon_function
    | MissingFunction(name: string, functionName: string) // AttributeError in execute_addon_function

  datatype Result<T> = Ok(value: T) | Failure(error: AddonError)

  function OrElse(o: Option<string>, default: string): string {
    if o.Some? then o.value else default
  }

  /**
   * _load_addon_metadata: module attributes with their documented defaults.
   * Every module has a __doc__ attribute, so the description default never
   * applies: a module without a docstring gives the description None.
   */
  function LoadMetadata(name: string, m: AddonModule): (md: Metadata)
    ensures md.name == name && md.description == m.doc && md.dependencies == m.dependencies
    ensures md.version == (if m.version.Some? then m.version.value else "Unknown")
    ensures md.author == (if m.author.Some? then m.author.value else "Unknown")
  {
    Metadata(name, OrElse(m.version, "Unknown"), OrElse(m.author, "Unknown"), m.doc, m.dependencies)
  }

  /**
   * _check_dependencies as a specification: the first declared dependency
   * that is not active, if there is one.
   */
  function FirstMissing(deps: seq<string>, active: set<string>): Option<string> {
    if |deps| == 0 then None
    else if deps[0] !in active then Some(deps[0])
    else FirstMissing(deps[1..], active)
  }

  /** No dependency is reported missing exactly when all of them are active; a reported one is a missing one. */
  lemma {:induction false} FirstMissingSound(deps: seq<string>, active: set<string>)
    ensures FirstMissing(deps, active) == None <==> forall d :: d in deps ==> d in active
    ensures FirstMissing(deps, active).Some? ==>
              FirstMissing(deps, active).value in deps && FirstMissing(deps, active).value !in active
  {
    if |deps| > 0 {
      FirstMissingSound(deps[1..], active);
      assert forall d :: d in deps ==> d == deps[0] || d in deps[1..];
    }
  }

  /** The three dictionaries of an AddonManager. */
  datatype Registry = Registry(
    loaded: map<string, AddonModule>,
    active: map<string, AddonModule>,
    metadata: map<string, Metadata>)
  {
    /** Every loaded addon has metadata and nothing else has. */
    predicate SameKeys() {
      loaded.Keys == metadata.Keys
    }

    /** The registry invariant: SameKeys, and only loaded addons are active. */
    predicate Valid() {
      SameKeys() && active.Keys <= loaded.Keys
    }

    /**
     * load_addon, given the module its try block would store (None: the
     * import or the reading of the metadata file raised).  Loading succeeds
     * exactly for a name not yet loaded whose import yields a module with
     * initialize and shutdown; success adds the name to loaded and to
     * metadata and nothing else, failure changes nothing, and the active set
     * is never touched.
     */
    function Load(name: string, imported: Option<AddonModule>): (r: (Registry, bool))
      ensures r.1 <==> name !in loaded && imported.Some? && imported.value.hasInitialize && imported.value.hasShutdown
      ensures !r.1 ==> r.0 == this
      ensures r.1 ==> && r.0.loaded.Keys == loaded.Keys + {name} && r.0.metadata.Keys == metadata.Keys + {name}
                      && r.0.loaded[name] == imported.value && r.0.metadata[name] == LoadMetadata(name, imported.value)
                      && (forall n :: n in loaded ==> r.0.loaded[n] == loaded[n])
                      && (forall n :: n in metadata && n != name ==> r.0.metadata[n] == metadata[n])
      ensures r.0.active == active
    {
      if name in loaded then (this, false)
      else if imported.None? then (this, false)
      else if !imported.value.hasInitialize || !imported.value.hasShutdown then (this, false)
      else
        var m := imported.value;
        (this.(metadata := metadata[name := LoadMetadata(name, m)], loaded := loaded[name := m]), true)
    }

    /**
     * activate_addon, given whether initialize() returns normally.  A name
     * without metadata fails as the KeyError it raises would.  Activation
     * succeeds exactly for a loaded, inactive addon all of whose declared
     * dependencies are active and whose initialize() succeeds; success adds
     * that name, bound to its loaded module, to the active set and nothing
     * else, and failure changes nothing.
     */
    function Activate(name: string, initOk: bool): (r: (Registry, bool))
      ensures r.1 <==> && name in loaded && name !in active && name in metadata && initOk
                       && (forall d :: d in metadata[name].dependencies ==> d in active)
      ensures !r.1 ==> r.0 == this
      ensures r.1 ==> r.0.active == active[name := loaded[name]]
      ensures r.0.loaded == loaded && r.0.metadata == metadata
    {
      if name !in loaded then (this, false)
      else if name in active then (this, false)
      else if name !in metadata then (this, false)
      else
        FirstMissingSound(metadata[name].dependencies, active.Keys);
        if FirstMissing(metadata[name].dependencies, active.Keys).Some? then (this, false)
        else if !initOk then (this, false)
        else (this.(active := active[name := loaded[name]]), true)
    }

    /**
     * deactivate_addon, given whether shutdown() returns normally.  It
     * succeeds exactly for an active addon whose shutdown() succeeds, removes
     * exactly that name from the active set, and never touches the loaded
     * addons or the metadata.
     */
    function Deactivate(name: string, shutdownOk: bool): (r: (Registry, bool))
      ensures r.1 <==> name in active && shutdownOk
      ensures !r.1 ==> r.0 == this
      ensures r.1 ==> r.0.active == active - {name}
      ensures r.0.loaded == loaded && r.0.metadata == metadata
    {
      if name !in active then (this, false)
      else if !shutdownOk then (this, false)
      else (this.(active := active - {name}), true)
    }

    /**
     * reload_addon as written: deactivation's result is ignored before the
     * unload.  A name that is not loaded fails and changes nothing; when an
     * active addon's shutdown() fails, the name is still active afterwards,
     * whatever the reload's load_addon does.
     */
    function ReloadAsWritten(name: string, shutdownOk: bool, imported: Option<AddonModule>, initOk: bool): (r: (Registry, bool))
      ensures name !in loaded ==> r == (this, false)
      ensures name in loaded && name in active && !shutdownOk ==> name in r.0.active
    {
      if name !in loaded then (this, false)
      else
        var wasActive := name in active;
        var down := if wasActive then Deactivate(name, shutdownOk).0 else this;
        var unloaded := down.(loaded := down.loaded - {name}, metadata := down.metadata - {name});
        var (reloaded, ok) := unloaded.Load(name, imported);
        if !ok then (reloaded, false)
        else if wasActive then reloaded.Activate(name, initOk)
        else (reloaded, true)
    }

    /**
     * reload_addon corrected: a failed deactivation aborts the reload.  A name
     * that is not loaded, or an active one whose shutdown() fails, fails and
     * changes nothing.
     */
    function Reload(name: string, shutdownOk: bool, imported: Option<AddonModule>, initOk: bool): (r: (Registry, bool))
      ensures name !in loaded ==> r == (this, false)
      ensures name in active && !shutdownOk ==> r == (this, false)
    {
      if name !in loaded then (this, false)
      else
        var wasActive := name in active;
        var (down, stopped) := if wasActive then Deactivate(name, shutdownOk) else (this, true);
        if !stopped then (this, false)
        else
          var unloaded := down.(loaded := down.loaded - {name}, metadata := down.metadata - {name});
          var (reloaded, ok) := unloaded.Load(name, imported);
          if !ok then (reloaded, false)
          else if wasActive then reloaded.Activate(name, initOk)
          else (reloaded, true)
    }

    /**
     * get_addon_info, without the public function and class listings: an
     * error exactly when the name is not loaded; otherwise the info carries
     * the name, reports Active exactly for an active name, and takes version,
     * author, description and dependencies from the metadata.
     */
    function AddonInfo(name: string): (r: Result<Info>)
      ensures r.Failure? <==> name !in loaded
      ensures r.Failure? ==> r.error == NotLoaded(name)
      ensures r.Ok? ==> r.value.name == name && (r.value.status == Active <==> name in active)
      ensures r.Ok? && name in metadata ==>
                && r.value.version == metadata[name].version && r.value.author == metadata[name].author
                && r.value.description == metadata[name].description
                && r.value.dependencies == metadata[name].dependencies
    {
      if name !in loaded then Failure(NotLoaded(name))
      else
        var status := if name in active then Active else Inactive;
        if name in metadata then
          var md := metadata[name];
          Ok(Info(name, md.version, md.author, md.description, status, md.dependencies))
        else
          Ok(Info(name, "Unknown", "Unknown", Some("No description provided."), status, []))
    }

    /**
     * The guard of execute_addon_function: a function is reached only
     * through an active addon that has it, and the module it is taken from
     * is that addon's active module.
     */
    function ExecuteGuard(name: string, functionName: string): (r: Result<AddonModule>)
      ensures r == Failure(NotActive(name)) <==> name !in active
      ensures r.Ok? <==> name in active && functionName in active[name].attributes
      ensures r.Ok? ==> r.value == active[name]
      ensures name in active && functionName !in active[name].attributes ==>
                r == Failure(MissingFunction(name, functionName))
    {
      if name !in active then Failure(NotActive(name))
      else if functionName !in active[name].attributes then Failure(MissingFunction(name, functionName))
      else Ok(active[name])
    }

    /** get_active_addons, as a set of names. */
    function ActiveAddons(): set<string> {
      active.Keys
    }

    /** get_loaded_addons, as a set of names. */
    function LoadedAddons(): set<string> {
      loaded.Keys
    }
  }

  // -----------------------------------------------------------------------
  // Per-operation properties
  // -----------------------------------------------------------------------

  /** Deactivation does not look at dependents: it can leave an active addon whose dependency is inactive. */
  lemma DeactivateIgnoresDependents()
    ensures var base := AddonModule(true, true, None, None, None, [], {});
            var plugin := base.(dependencies := ["base"]);
            var r := Registry(map["base" := base, "plugin" := plugin], map["base" := base, "plugin" := plugin],
                              map["base" := LoadMetadata("base", base), "plugin" := LoadMetadata("plugin", plugin)]);
            var (r', ok) := r.Deactivate("base", true);
            && r.Valid() && ok && "plugin" in r'.active
            && "base" in r'.metadata["plugin"].dependencies && "base" !in r'.active
  {
  }

  /**
   * A freshly loaded addon is reported Inactive with the module's own
   * version, author, docstring and dependencies, the documented defaults
   * standing in for a missing version or author; a module without a
   * docstring is reported without a description.
   */
  lemma LoadThenInfo(r: Registry, name: string, m: AddonModule)
    requires r.Valid()
    ensures var (r', ok) := r.Load(name, Some(m));
      ok ==> r'.AddonInfo(name)
             == Ok(Info(name, OrElse(m.version, "Unknown"), OrElse(m.author, "Unknown"), m.doc, Inactive, m.dependencies))
  {
  }

  /** Under the invariant every name get_active_addons lists is among those get_loaded_addons lists. */
  lemma ActiveListedAmongLoaded(r: Registry, name: string)
    requires r.Valid()
    ensures r.ActiveAddons() <= r.LoadedAddons()
    ensures name in r.ActiveAddons() ==> r.AddonInfo(name).Ok? && r.AddonInfo(name).value.status == Active
  {
  }

  // -----------------------------------------------------------------------
  // The registry invariant
  // -----------------------------------------------------------------------

  lemma LoadKeepsValid(r: Registry, name: string, imported: Option<AddonModule>)
    requires r.Valid()
    ensures r.Load(name, imported).0.Valid()
  {
  }

  lemma ActivateKeepsValid(r: Registry, name: string, initOk: bool)
    requires r.Valid()
    ensures r.Activate(name, initOk).0.Valid()
  {
  }

  lemma DeactivateKeepsValid(r: Registry, name: string, shutdownOk: bool)
    requires r.Valid()
    ensures r.Deactivate(name, shutdownOk).0.Valid()
  {
  }

  /**
   * reload_addon as written breaks the invariant: when an active addon's
   * shutdown() fails, the name stays active while it is unloaded, and when
   * load_addon then fails, it is left active but not loaded.
   */
  lemma ReloadAsWrittenBreaksValid()
    ensures var m := AddonModule(true, true, None, None, None, [], {});
            var r := Registry(map["a" := m], map["a" := m], map["a" := LoadMetadata("a", m)]);
            var (r', ok) := r.ReloadAsWritten("a", false, None, true);
            && r.Valid() && !ok && "a" in r'.active && "a" !in r'.loaded && !r'.Valid()
  {
  }

  /** The corrected reload keeps the invariant on every path. */
  lemma ReloadKeepsValid(r: Registry, name: string, shutdownOk: bool, imported: Option<AddonModule>, initOk: bool)
    requires r.Valid()
    ensures r.Reload(name, shutdownOk, imported, initOk).0.Valid()
  {
    if name in r.loaded {
      var wasActive := name in r.active;
      var (down, stopped) := if wasActive then r.Deactivate(name, shutdownOk) else (r, true);
      if stopped {
        DeactivateKeepsValid(r, name, shutdownOk);
        assert name !in down.active;
        var unloaded := down.(loaded := down.loaded - {name}, metadata := down.metadata - {name});
        assert unloaded.Valid();
        LoadKeepsValid(unloaded, name, imported);
        var (reloaded, ok) := unloaded.Load(name, imported);
        if ok && wasActive {
          ActivateKeepsValid(reloaded, name, initOk);
        }
      }
    }
  }

  /** The two reloads differ only when shutdown() fails. */
  lemma ReloadAgreesWhenShutdownSucceeds(r: Registry, name: string, imported: Option<AddonModule>, initOk: bool)
    ensures r.Reload(name, true, imported, initOk) == r.ReloadAsWritten(name, true, imported, initOk)
  {
  }

  /**
   * Reloading an active addon whose shutdown, re-import and initialize all
   * succeed, and whose new dependencies are active, ends with it active
   * again, bound to the newly imported module.
   */
  lemma ReloadRestoresActive(r: Registry, name: string, m: AddonModule)
    requires r.Valid() && name in r.active
    requires m.hasInitialize && m.hasShutdown
    requires forall d :: d in m.dependencies ==> d in r.active && d != name
    ensures var (r', ok) := r.Reload(name, true, Some(m), true);
            && ok && name in r'.active && r'.active[name] == m && r'.loaded[name] == m
  {
    var down := r.(active := r.active - {name});
    var unloaded := down.(loaded := down.loaded - {name}, metadata := down.metadata - {name});
    var (reloaded, ok) := unloaded.Load(name, Some(m));
    assert ok;
    FirstMissingSound(m.dependencies, reloaded.active.Keys);
  }

  // -----------------------------------------------------------------------
  // The manager object
  // -----------------------------------------------------------------------

  class AddonManager {
    const addonDirectory: string
    var loadedAddons: map<string, AddonModule>
    var activeAddons: map<string, AddonModule>
    var addonMetadata: map<string, Metadata>

    function State(): Registry
      reads this
    {
      Registry(loadedAddons, activeAddons, addonMetadata)
    }

    ghost predicate Valid()
      reads this
    {
      State().Valid()
    }

    constructor (directory: string)
      ensures Valid() && addonDirectory == directory
      ensures loadedAddons == map[] && activeAddons == map[] && addonMetadata == map[]
    {
      addonDirectory := directory;
      loadedAddons, activeAddons, addonMetadata := map[], map[], map[];
    }

    method LoadAddon(name: string, imported: Option<AddonModule>) returns (ok: bool)
      requires Valid()
      modifies this
      ensures Valid()
      ensures (State(), ok) == old(State()).Load(name, imported)
    {
      LoadKeepsValid(State(), name, imported);
      if name in loadedAddons {
        return false;
      }
      if imported.None? {
        return false;
      }
      var addon := imported.value;
      if !addon.hasInitialize || !addon.hasShutdown {
        return false;
      }
      addonMetadata := addonMetadata[name := LoadMetadata(name, addon)];
      loadedAddons := loadedAddons[name := addon];
      return true;
    }

    /** _check_dependencies: scans the declared dependencies in order for one that is not active. */
    method CheckDependencies(name: string) returns (missing: Option<string>)
      requires name in addonMetadata
      ensures missing == FirstMissing(addonMetadata[name].dependencies, activeAddons.Keys)
    {
      var dependencies := addonMetadata[name].dependencies;
      var i := 0;
      while i < |dependencies|
        invariant 0 <= i <= |dependencies|
        invariant FirstMissing(dependencies, activeAddons.Keys) == FirstMissing(dependencies[i..], activeAddons.Keys)
      {
        if dependencies[i] !in activeAddons {
          return Some(dependencies[i]);
        }
        assert dependencies[i..][1..] == dependencies[i + 1..];
        i := i + 1;
      }
      return None;
    }

    method ActivateAddon(name: string, initOk: bool) returns (ok: bool)
      requires Valid()
      modifies this
      ensures Valid()
      ensures (State(), ok) == old(State()).Activate(name, initOk)
    {
      ActivateKeepsValid(State(), name, initOk);
      if name !in loadedAddons {
        return false;
      }
      if name in activeAddons {
        return false;
      }
      var addon := loadedAddons[name];
      if name !in addonMetadata {
        return false;
      }
      var missing := CheckDependencies(name);
      if missing.Some? {
        return false;
      }
      if !initOk {
        return false;
      }
      activeAddons := activeAddons[name := addon];
      return true;
    }

    method DeactivateAddon(name: string, shutdownOk: bool) returns (ok: bool)
      requires Valid()
      modifies this
      ensures Valid()
      ensures (State(), ok) == old(State()).Deactivate(name, shutdownOk)
    {
      DeactivateKeepsValid(State(), name, shutdownOk);
      if name !in activeAddons {
        return false;
      }
      if !shutdownOk {
        return false;
      }
      activeAddons := activeAddons - {name};
      return true;
    }

    /** reload_addon, with a failed deactivation aborting the reload. */
    method ReloadAddon(name: string, shutdownOk: bool, imported: Option<AddonModule>, initOk: bool) returns (ok: bool)
      requires Valid()
      modifies this
      ensures Valid()
      ensures (State(), ok) == old(State()).Reload(name, shutdownOk, imported, initOk)
    {
      ReloadKeepsValid(State(), name, shutdownOk, imported, initOk);
      if name !in loadedAddons {
        return false;
      }
      var wasActive := name in activeAddons;
      if wasActive {
        var stopped := DeactivateAddon(name, shutdownOk);
        if !stopped {
          return false;
        }
      }
      loadedAddons := loadedAddons - {name};
      addonMetadata := addonMetadata - {name};
      ok := LoadAddon(name, imported);
      if ok && wasActive {
        ok := ActivateAddon(name, initOk);
      }
    }
  }
}
