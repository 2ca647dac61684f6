/**
 * `AsyncEnvironment`: resolves a template name to a `Template` through its template cache,
 * keyed by the loader's identity and the name, and falls back on the loader when the cache
 * has no entry or, with `auto_reload`, a stale one.  Up-to-date checks are answered by the
 * `checks` oracle: per check, what awaiting its result gives, or `None` when the result
 * cannot be awaited and the `await` raises.
 */
module Environment {
  import opened Wrappers
  import opened Values
  import opened Units
  import opened Bccache
  import opened Loaders

  /** The `name` argument of `get_template`: a name, or a template already loaded. */
  datatype TemplateRef = Named(name: string) | Given(template: Template)

  datatype EnvError =
    | NoLoader                   // TypeError("no loader for this environment specified")
    | UpToDateNotAwaitable       // TypeError from `await template.is_up_to_date`
    | LoadFailed(cause: LoadError)

  function EnvErrorText(e: EnvError): string {
    match e
    case NoLoader => "no loader for this environment specified"
    case UpToDateNotAwaitable => "object bool can't be used in 'await' expression"
    case LoadFailed(cause) => LoadErrorText(cause)
  }

  type CacheKey = (nat, string)

  /** `make_globals(d)`: the environment's globals overlaid by `d`, whose entries win. */
  function MakeGlobals(envGlobals: Context, d: Option<Context>): (r: Context)
    ensures forall k :: k in r <==> k in envGlobals || (d.Some? && k in d.value)
    ensures forall k :: d.Some? && k in d.value ==> r[k] == d.value[k]
    ensures forall k :: k in envGlobals && (d.None? || k !in d.value) ==> r[k] == envGlobals[k]
  {
    envGlobals + d.GetOr(map[])
  }

  /** `globals.update(extra)` when `extra` is non-empty. */
  function Merged(globals: Context, extra: Option<Context>): Context {
    if extra.Some? && extra.value != map[] then globals + extra.value else globals
  }

  /** What the template cache does for a key: serve a template, send the call on to the
      loader, or raise from the `await` on the up-to-date check. */
  datatype Lookup = Serve(template: Template) | Miss | NotAwaitable

  /** The cache step of `_load_template`: a cached template is served when `autoReload` is
      off or its awaited check says it is up to date. */
  function CacheLookup(cache: Option<map<CacheKey, Template>>, key: CacheKey, autoReload: bool,
                       checks: nat -> Option<bool>): (l: Lookup)
    ensures l.Serve? ==> cache.Some? && key in cache.value && l.template == cache.value[key]
    ensures l.NotAwaitable? ==> autoReload && cache.Some? && key in cache.value
  {
    if cache.None? || key !in cache.value then Miss
    else if !autoReload then Serve(cache.value[key])
    else match AwaitUpToDate(cache.value[key], checks)
      case None => NotAwaitable
      case Some(upToDate) => if upToDate then Serve(cache.value[key]) else Miss
  }

  /** The name `get_template` loads. */
  function ResolvedName(joinPath: (string, string) -> string, name: string, parent: Option<string>): string {
    if parent.Some? then joinPath(name, parent.value) else name
  }

  /** Without `jinja_globals` a loaded template sees exactly the environment's globals. */
  lemma MakeGlobalsDefault(envGlobals: Context)
    ensures MakeGlobals(envGlobals, None) == envGlobals
  {
  }

  /** Merging into a cached template keeps its own globals except where the call's override
      them; merging nothing changes nothing. */
  lemma MergedOverrides(globals: Context, extra: Option<Context>, k: string)
    ensures extra.None? || extra == Some(map[]) ==> Merged(globals, extra) == globals
    ensures extra.Some? && k in extra.value ==> k in Merged(globals, extra) && Merged(globals, extra)[k] == extra.value[k]
    ensures k in globals && (extra.None? || k !in extra.value) ==> Merged(globals, extra)[k] == globals[k]
  {
  }

  /** A template just stored is served for its key while its awaited check says it is up to
      date, and always when `autoReload` is off. */
  lemma StoredIsServed(entries: map<CacheKey, Template>, key: CacheKey, t: Template, autoReload: bool, checks: nat -> Option<bool>)
    requires !autoReload || (t.uptodate.Some? && checks(t.uptodate.value) == Some(true))
    ensures CacheLookup(Some(entries[key := t]), key, autoReload, checks) == Serve(t)
  {
  }

  /** With `auto_reload`, a template whose awaited check says it is stale is loaded again. */
  lemma StaleNotServed(cache: Option<map<CacheKey, Template>>, key: CacheKey, checks: nat -> Option<bool>)
    requires cache.Some? && key in cache.value && AwaitUpToDate(cache.value[key], checks) == Some(false)
    ensures CacheLookup(cache, key, true, checks) == Miss
  {
  }

  /** With `auto_reload`, a cached template whose check cannot be awaited makes the lookup
      raise; in particular every template stored without a check does, on its next lookup. */
  lemma UncheckedRaises(entries: map<CacheKey, Template>, key: CacheKey, t: Template, checks: nat -> Option<bool>)
    requires t.uptodate.None? || checks(t.uptodate.value).None?
    ensures CacheLookup(Some(entries[key := t]), key, true, checks) == NotAwaitable
    ensures CacheLookup(Some(entries[key := t]), key, false, checks) == Serve(t)
  {
  }

  /** Without `auto_reload`, any cached template is served, stale or not. */
  lemma NoReloadServesAny(entries: map<CacheKey, Template>, key: CacheKey, checks: nat -> Option<bool>)
    requires key in entries
    ensures CacheLookup(Some(entries), key, false, checks) == Serve(entries[key])
  {
  }

  /** Templates of different loaders never answer for each other, even under one name. */
  lemma LoadersSeparate(entries: map<CacheKey, Template>, id1: nat, id2: nat, name: string, t: Template,
                        autoReload: bool, checks: nat -> Option<bool>)
    requires id1 != id2
    ensures CacheLookup(Some(entries[(id1, name) := t]), (id2, name), autoReload, checks)
         == CacheLookup(Some(entries), (id2, name), autoReload, checks)
  {
  }

  class AsyncEnvironment {
    const loader: Loader?
    const bytecodeCache: RedisBytecodeCache?
    const autoReload: bool
    /** The environment's own globals. */
    const globals: Context
    /** `join_path(template, parent)`. */
    const joinPath: (string, string) -> string
    const compile: Compiler
    /** The template cache; `None` when caching is off. */
    var cache: Option<map<CacheKey, Template>>

    constructor (loader: Loader?, bytecodeCache: RedisBytecodeCache?, autoReload: bool, globals: Context,
                 joinPath: (string, string) -> string, compile: Compiler, caching: bool)
      ensures this.loader == loader && this.bytecodeCache == bytecodeCache && this.autoReload == autoReload
      ensures this.globals == globals && this.joinPath == joinPath && this.compile == compile
      ensures cache == if caching then Some(map[]) else None
    {
      this.loader := loader;
      this.bytecodeCache := bytecodeCache;
      this.autoReload := autoReload;
      this.globals := globals;
      this.joinPath := joinPath;
      this.compile := compile;
      cache := if caching then Some(map[]) else None;
    }

    /** The templates the cache holds. */
    function Cached(): set<Template>
      reads this
    {
      if cache.Some? then cache.value.Values else {}
    }

    /** `_load_template(name, jinja_globals)`: the cache step, then, on a miss, the loader's
        `load` with the made globals, whose template is stored when caching is on. */
    method LoadTemplate(name: string, jinjaGlobals: Option<Context>, checks: nat -> Option<bool>)
      returns (r: Result<Template, EnvError>)
      modifies this, Cached(), bytecodeCache
      ensures loader == null ==> r == Failure(NoLoader) && cache == old(cache)
      ensures loader == null || !old(CacheLookup(cache, (loader.id, name), autoReload, checks)).Serve? ==>
        forall t :: t in old(Cached()) ==> t.globals == old(t.globals)
      ensures loader == null && bytecodeCache != null ==> bytecodeCache.store == old(bytecodeCache.store)
      ensures loader != null ==>
        var look := old(CacheLookup(cache, (loader.id, name), autoReload, checks));
        var plan := old(loader.Planned(compile, bytecodeCache, name));
        && (look.NotAwaitable? ==>
              && r == Failure(UpToDateNotAwaitable) && cache == old(cache)
              && (bytecodeCache != null ==> bytecodeCache.store == old(bytecodeCache.store)))
        && (look.Serve? ==>
              && r == Success(look.template) && cache == old(cache)
              && (bytecodeCache != null ==> bytecodeCache.store == old(bytecodeCache.store))
              && look.template.globals == Merged(old(look.template.globals), jinjaGlobals)
              && (forall t :: t in old(Cached()) && t != look.template ==> t.globals == old(t.globals)))
        && (look.Miss? && plan.Failure? ==>
              && r == Failure(LoadFailed(plan.error)) && cache == old(cache)
              && (bytecodeCache != null ==> bytecodeCache.store == old(bytecodeCache.store)))
        && (look.Miss? && plan.Success? ==>
              && r.Success? && fresh(r.value)
              && r.value.code == plan.value.code && r.value.uptodate == plan.value.uptodate
              && r.value.globals == MakeGlobals(globals, jinjaGlobals)
              && cache == (if old(cache).Some? then Some(old(cache).value[(loader.id, name) := r.value]) else None)
              && (bytecodeCache != null ==>
                    bytecodeCache.store == WrittenBack(old(bytecodeCache.store), plan.value.written)))
    {
      if loader == null {
        return Failure(NoLoader);
      }
      var key := (loader.id, name);
      match CacheLookup(cache, key, autoReload, checks)
      case NotAwaitable =>
        return Failure(UpToDateNotAwaitable);
      case Serve(template) =>
        if jinjaGlobals.Some? && jinjaGlobals.value != map[] {
          template.globals := template.globals + jinjaGlobals.value;
        }
        return Success(template);
      case Miss =>
        var loaded, _, _ := loader.Load(compile, bytecodeCache, name, Some(MakeGlobals(globals, jinjaGlobals)));
        if loaded.Failure? {
          return Failure(LoadFailed(loaded.error));
        }
        if cache.Some? {
          cache := Some(cache.value[key := loaded.value]);
        }
        return Success(loaded.value);
    }

    /** `get_template(name, parent, jinja_globals)`: a given template comes back untouched;
        a name, joined with `parent` when there is one, goes through `_load_template`. */
    method GetTemplate(name: TemplateRef, parent: Option<string>, jinjaGlobals: Option<Context>, checks: nat -> Option<bool>)
      returns (r: Result<Template, EnvError>)
      modifies this, Cached(), bytecodeCache
      ensures name.Given? ==> r == Success(name.template) && cache == old(cache)
      ensures name.Given? ==> forall t :: t in old(Cached()) ==> t.globals == old(t.globals)
      ensures name.Given? && bytecodeCache != null ==> bytecodeCache.store == old(bytecodeCache.store)
      ensures name.Named? && loader == null ==> r == Failure(NoLoader) && cache == old(cache)
      ensures name.Named? && loader == null && bytecodeCache != null ==> bytecodeCache.store == old(bytecodeCache.store)
      ensures name.Named? && loader != null ==>
        var resolved := ResolvedName(joinPath, name.name, parent);
        var look := old(CacheLookup(cache, (loader.id, resolved), autoReload, checks));
        var plan := old(loader.Planned(compile, bytecodeCache, resolved));
        && (look.NotAwaitable? ==>
              && r == Failure(UpToDateNotAwaitable) && cache == old(cache)
              && (bytecodeCache != null ==> bytecodeCache.store == old(bytecodeCache.store)))
        && (look.Serve? ==>
              && r == Success(look.template) && cache == old(cache)
              && (bytecodeCache != null ==> bytecodeCache.store == old(bytecodeCache.store))
              && look.template.globals == Merged(old(look.template.globals), jinjaGlobals))
        && (look.Miss? && plan.Failure? ==>
              && r == Failure(LoadFailed(plan.error)) && cache == old(cache)
              && (bytecodeCache != null ==> bytecodeCache.store == old(bytecodeCache.store)))
        && (look.Miss? && plan.Success? ==>
              && r.Success? && fresh(r.value)
              && r.value.code == plan.value.code && r.value.uptodate == plan.value.uptodate
              && r.value.globals == MakeGlobals(globals, jinjaGlobals)
              && cache == (if old(cache).Some? then Some(old(cache).value[(loader.id, resolved) := r.value]) else None)
              && (bytecodeCache != null ==>
                    bytecodeCache.store == WrittenBack(old(bytecodeCache.store), plan.value.written)))
    {
      if name.Given? {
        return Success(name.template);
      }
      r := LoadTemplate(ResolvedName(joinPath, name.name, parent), jinjaGlobals, checks);
    }
  }
}
