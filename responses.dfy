/**
 * The caching layer of `AsyncJinja2Templates`: the block (fragment) render-function cache,
 * the per-request context cache, the pool of reusable context dicts, the block-name fast
 * path, and the small helpers around them.  Wall-clock time is an integer `now` given to
 * each call; the template environment is a function `resolve` from a name to the template
 * `get_template_async` returns (`None` when loading raised).
 */
module Responses {
  import opened Wrappers
  import opened PyRepr
  import opened Values
  import opened Units
  import opened TimedEntries
  import opened ColonKeys

  // ---------------------------------------------------------------------------------------
  // Errors

  /** `BlockNotFoundError(block_name, template_name, message=None)`. */
  datatype BlockNotFoundError = BlockNotFoundError(blockName: string, templateName: string, message: Option<string>)

  function DefaultBlockMessage(blockName: string, templateName: string): string {
    "Block " + Repr(blockName) + " not found in template " + Repr(templateName)
  }

  /** `str(error)`: the explicit message unless it is `None` or empty (`message or ...`). */
  function BlockErrorMessage(e: BlockNotFoundError): string {
    match e.message
    case Some(m) => if m != "" then m else DefaultBlockMessage(e.blockName, e.templateName)
    case None => DefaultBlockMessage(e.blockName, e.templateName)
  }

  /** The exceptions the caches and `render_fragment` let out. */
  datatype Error =
    | BlockNotFound(error: BlockNotFoundError)
      /** `RuntimeError("Error loading template '<name>'")` from `get_template_async` */
    | TemplateLoadFailed(name: string)
      /** `ValueError` from `min()` over an empty cache whose size is 0 or less */
    | EmptyMin
      /** any exception a context processor raises, by its message */
    | ProcessorRaised(text: string)
      /** any exception raised while rendering the block, by its message */
    | RenderFailed(text: string)
      /** the `RuntimeError` that `render_fragment` wraps other errors in */
    | FragmentFailed(text: string)

  /** `str(e)`. */
  function ErrorText(e: Error): string {
    match e
    case BlockNotFound(b) => BlockErrorMessage(b)
    case TemplateLoadFailed(name) => "Error loading template '" + name + "'"
    // CPython 3.12 and later; earlier 3.x releases say "min() arg is an empty sequence"
    case EmptyMin => "min() iterable argument is empty"
    case ProcessorRaised(text) => text
    case RenderFailed(text) => text
    case FragmentFailed(text) => text
  }

  /** Regrouping the default message once each name is quoted. */
  lemma QuotedMessage(blockName: string, templateName: string)
    ensures "Block " + ("'" + blockName + "'") + " not found in template " + ("'" + templateName + "'")
      == "Block '" + blockName + "' not found in template '" + templateName + "'"
  {
  }

  /** The message carries both names verbatim, each between single quotes. */
  lemma BlockNotFoundMessage(blockName: string, templateName: string)
    requires Plain(blockName) && Plain(templateName)
    ensures BlockErrorMessage(BlockNotFoundError(blockName, templateName, None))
      == "Block '" + blockName + "' not found in template '" + templateName + "'"
  {
    ReprOfPlain(blockName);
    ReprOfPlain(templateName);
    QuotedMessage(blockName, templateName);
  }

  /** A non-empty explicit message replaces the default one. */
  lemma ExplicitBlockMessage(blockName: string, templateName: string, message: string)
    requires message != ""
    ensures BlockErrorMessage(BlockNotFoundError(blockName, templateName, Some(message))) == message
  {
  }

  // ---------------------------------------------------------------------------------------
  // Cache keys

  /** `request.url.path` when the request has a `url` with a `path`, else `str(request)`. */
  function RequestPath(request: Value): string {
    if request.ObjectValue? && request.url.Some? && request.url.value.path.Some?
    then request.url.value.path.value
    else Str(request)
  }

  /** `getattr(request, "method", "GET")`. */
  function RequestMethod(request: Value): string {
    if request.ObjectValue? && request.httpMethod.Some? then request.httpMethod.value else "GET"
  }

  /** `_get_context_cache_key`: `"<method>:<path>"`. */
  function ContextCacheKey(request: Value): string {
    RequestMethod(request) + ":" + RequestPath(request)
  }

  /** Two requests share a context-cache entry exactly when they agree on method and path
      (for methods without ':', as HTTP methods are). */
  lemma ContextCacheKeyDistinguishes(r1: Value, r2: Value)
    requires ':' !in RequestMethod(r1) && ':' !in RequestMethod(r2)
    ensures ContextCacheKey(r1) == ContextCacheKey(r2)
      <==> RequestMethod(r1) == RequestMethod(r2) && RequestPath(r1) == RequestPath(r2)
  {
    if ContextCacheKey(r1) == ContextCacheKey(r2) {
      JoinLeftInjective(RequestMethod(r1), RequestPath(r1), RequestMethod(r2), RequestPath(r2));
    }
  }

  /** A request object without a `url` is keyed by its `str()`, under its own method. */
  lemma ContextCacheKeyFallback(id: nat, httpMethod: string, text: string)
    ensures ContextCacheKey(ObjectValue(id, Some(httpMethod), None, text)) == httpMethod + ":" + text
    ensures ContextCacheKey(ObjectValue(id, None, None, text)) == "GET:" + text
  {
  }

  /** The block cache's key `"<template>:<block>"`. */
  function BlockKey(templateName: string, blockName: string): string {
    templateName + ":" + blockName
  }

  /** Block names are identifiers, so no two (template, block) pairs share a cache entry. */
  lemma BlockKeyDistinguishes(t1: string, b1: string, t2: string, b2: string)
    requires ':' !in b1 && ':' !in b2
    ensures BlockKey(t1, b1) == BlockKey(t2, b2) <==> t1 == t2 && b1 == b2
  {
    if BlockKey(t1, b1) == BlockKey(t2, b2) {
      JoinRightInjective(t1, b1, t2, b2);
    }
  }

  // ---------------------------------------------------------------------------------------
  // Context processing

  /** A context processor: a function of the request giving a mapping to merge, or the
      message of the exception it raises. */
  type Processor = Value -> Result<Context, string>

  /** A context may be cached unless one of its values is request-like. */
  predicate Cacheable(context: Context) {
    forall k :: k in context ==> !RequestLike(context[k])
  }

  /** `_is_context_cacheable`: scans the values and stops at the first request-like one. */
  method IsContextCacheable(context: Context) returns (cacheable: bool)
    ensures cacheable == Cacheable(context)
  {
    var keys := context.Keys;
    while keys != {}
      invariant keys <= context.Keys
      invariant forall k :: k in context && k !in keys ==> !RequestLike(context[k])
      decreases keys
    {
      var k :| k in keys;
      if RequestLike(context[k]) {
        return false;
      }
      keys := keys - {k};
    }
    return true;
  }

  /** What the processor loop builds: each non-empty result merged in registration order,
      or the first exception a processor raises, which ends the loop. */
  function Merged(processors: seq<Processor>, request: Value): Result<Context, string>
    decreases |processors|
  {
    if processors == [] then Success(map[])
    else
      match Merged(processors[..|processors| - 1], request)
      case Failure(e) => Failure(e)
      case Success(earlier) =>
        match processors[|processors| - 1](request)
        case Failure(e) => Failure(e)
        case Success(result) => Success(if result != map[] then earlier + result else earlier)
  }

  /** The processor loop of `_get_processed_context`: call each processor on the request
      and merge every non-empty result into one dict, in order; an exception propagates. */
  method RunProcessors(processors: seq<Processor>, request: Value) returns (r: Result<Context, string>)
    ensures r == Merged(processors, request)
  {
    var context := map[];
    var i := 0;
    while i < |processors|
      invariant 0 <= i <= |processors|
      invariant Merged(processors[..i], request) == Success(context)
    {
      var result := processors[i](request);
      assert processors[..i + 1][..i] == processors[..i];
      if result.Failure? {
        MergedSucceeds(processors[..i], request);
        forall j | 0 <= j < i
          ensures processors[j](request).Success?
        {
          assert processors[..i][j] == processors[j];
        }
        MergedFirstFailure(processors, request, i);
        return Failure(result.error);
      }
      if result.value != map[] {
        context := context + result.value;
      }
      i := i + 1;
    }
    assert processors[..i] == processors;
    r := Success(context);
  }

  /** The loop completes exactly when no processor raises. */
  lemma {:induction false} MergedSucceeds(processors: seq<Processor>, request: Value)
    ensures Merged(processors, request).Success? <==> forall i :: 0 <= i < |processors| ==> processors[i](request).Success?
    decreases |processors|
  {
    if processors != [] {
      var n := |processors| - 1;
      var init := processors[..n];
      MergedSucceeds(init, request);
      assert forall i :: 0 <= i < n ==> init[i] == processors[i];
    }
  }

  /** The exception that escapes is the first processor's to raise; later processors are not
      called. */
  lemma {:induction false} MergedFirstFailure(processors: seq<Processor>, request: Value, i: nat)
    requires i < |processors| && processors[i](request).Failure?
    requires forall j :: 0 <= j < i ==> processors[j](request).Success?
    ensures Merged(processors, request) == Failure(processors[i](request).error)
    decreases |processors|
  {
    var n := |processors| - 1;
    var init := processors[..n];
    if i < n {
      assert init[i] == processors[i];
      assert forall j :: 0 <= j < i ==> init[j] == processors[j];
      MergedFirstFailure(init, request, i);
    } else {
      MergedSucceeds(init, request);
      assert forall j :: 0 <= j < n ==> init[j] == processors[j];
    }
  }

  /** A key is in the merged context iff some processor returned it. */
  lemma {:induction false} MergedKeys(processors: seq<Processor>, request: Value, k: string)
    requires Merged(processors, request).Success?
    ensures k in Merged(processors, request).value <==>
      exists i :: 0 <= i < |processors| && processors[i](request).Success? && k in processors[i](request).value
    decreases |processors|
  {
    if processors != [] {
      var n := |processors| - 1;
      var init := processors[..n];
      MergedKeys(init, request, k);
      if k in Merged(init, request).value {
        var i :| 0 <= i < n && init[i](request).Success? && k in init[i](request).value;
        assert processors[i] == init[i];
      }
      if exists i :: 0 <= i < n && processors[i](request).Success? && k in processors[i](request).value {
        var i :| 0 <= i < n && processors[i](request).Success? && k in processors[i](request).value;
        assert processors[i] == init[i];
      }
    }
  }

  /** The merged value of a key is the one from the last processor that returned it. */
  lemma {:induction false} MergedLastWins(processors: seq<Processor>, request: Value, k: string, i: nat)
    requires Merged(processors, request).Success?
    requires i < |processors| && processors[i](request).Success? && k in processors[i](request).value
    requires forall j :: i < j < |processors| && processors[j](request).Success? ==> k !in processors[j](request).value
    ensures k in Merged(processors, request).value
    ensures Merged(processors, request).value[k] == processors[i](request).value[k]
    decreases |processors|
  {
    var n := |processors| - 1;
    var init := processors[..n];
    if i < n {
      assert init[i] == processors[i];
      MergedLastWins(init, request, k, i);
    }
  }

  // ---------------------------------------------------------------------------------------
  // Cache steps as functions of the old state

  /** The outcome of one cache call: what it returns and the cache it leaves behind. */
  datatype Fetched<T, V> = Fetched(result: Result<T, Error>, cache: seq<Entry<V>>)

  /** `_get_processed_context`, as a function of the context cache before the call. */
  function ProcessedContext(processors: seq<Processor>, size: int, ttl: int,
                            cache: seq<Entry<Context>>, request: Value, now: int): (f: Fetched<Context, Context>)
    ensures f.result.Failure? ==> f.cache == cache
    ensures f.result.Failure? ==> f.result.error.EmptyMin? || f.result.error.ProcessorRaised?
    ensures f.cache != cache ==> f.result.Success? && Cacheable(f.result.value)
  {
    if processors == [] then Fetched(Success(map[]), cache)
    else
      var key := ContextCacheKey(request);
      match Hit(cache, key, now, ttl)
      case Some(stored) => Fetched(Success(stored), cache)
      case None =>
        match Merged(processors, request)
        case Failure(e) => Fetched(Failure(ProcessorRaised(e)), cache)
        case Success(context) =>
          if !Cacheable(context) then Fetched(Success(context), cache)
          else match Store(cache, size, key, now, context)
            case None => Fetched(Failure(EmptyMin), cache)
            case Some(c) => Fetched(Success(context), c)
  }

  /** The miss path both block-cache readers share: look the block up in the freshly loaded
      template and store its render function under the write time. */
  function StoreBlock(cache: seq<Entry<BlockFn>>, size: int, template: Template,
                      templateName: string, blockName: string, now: int): Fetched<BlockFn, BlockFn>
  {
    if blockName !in template.blocks then
      Fetched(Failure(BlockNotFound(BlockNotFoundError(blockName, templateName, None))), cache)
    else match Store(cache, size, BlockKey(templateName, blockName), now, template.blocks[blockName])
      case None => Fetched(Failure(EmptyMin), cache)
      case Some(c) => Fetched(Success(template.blocks[blockName]), c)
  }

  /** `_get_cached_block_func`, as a function of the block cache before the call. */
  function CachedBlockFunc(cache: seq<Entry<BlockFn>>, size: int, ttl: int, templateName: string,
                           blockName: string, now: int, resolve: string -> Option<Template>): (f: Fetched<BlockFn, BlockFn>)
    ensures f.result.Failure? ==> f.cache == cache
    ensures f.result.Success? ==>
      || Hit(cache, BlockKey(templateName, blockName), now, ttl) == Some(f.result.value)
      || (resolve(templateName).Some? && blockName in resolve(templateName).value.blocks
          && f.result.value == resolve(templateName).value.blocks[blockName])
  {
    match Hit(cache, BlockKey(templateName, blockName), now, ttl)
    case Some(f) => Fetched(Success(f), cache)
    case None =>
      match resolve(templateName)
      case None => Fetched(Failure(TemplateLoadFailed(templateName)), cache)
      case Some(t) => StoreBlock(cache, size, t, templateName, blockName, now)
  }

  /** `_preload_template_blocks`: the block names are recorded the first time only. */
  function Preloaded(templateBlocks: map<string, set<string>>, templateName: string, template: Template): map<string, set<string>> {
    if templateName in templateBlocks then templateBlocks
    else templateBlocks[templateName := template.blocks.Keys]
  }

  /** The first template preloaded under a name fixes the recorded block names: a later
      template under the same name does not replace them. */
  lemma PreloadedKeepsFirst(templateBlocks: map<string, set<string>>, templateName: string,
                            first: Template, later: Template, blockName: string)
    requires templateName !in templateBlocks
    ensures var recorded := Preloaded(Preloaded(templateBlocks, templateName, first), templateName, later);
      && templateName in recorded
      && (blockName in recorded[templateName] <==> blockName in first.blocks)
  {
  }

  datatype BlockLookup = BlockLookup(result: Result<(BlockFn, Template), Error>,
                                     cache: seq<Entry<BlockFn>>,
                                     templateBlocks: map<string, set<string>>)

  /** `_get_block_function_and_template`, as a function of the state before the call. */
  function LookupBlock(cache: seq<Entry<BlockFn>>, templateBlocks: map<string, set<string>>,
                       size: int, ttl: int, templateName: string, blockName: string, now: int,
                       resolve: string -> Option<Template>): (l: BlockLookup)
    ensures l.result.Success? ==> resolve(templateName) == Some(l.result.value.1)
    ensures l.result.Failure? ==> l.cache == cache
    ensures l.templateBlocks != templateBlocks ==> templateName !in templateBlocks && resolve(templateName).Some?
  {
    match Hit(cache, BlockKey(templateName, blockName), now, ttl)
    case Some(f) =>
      (match resolve(templateName)
       case None => BlockLookup(Failure(TemplateLoadFailed(templateName)), cache, templateBlocks)
       case Some(t) => BlockLookup(Success((f, t)), cache, templateBlocks))
    case None =>
      match resolve(templateName)
      case None => BlockLookup(Failure(TemplateLoadFailed(templateName)), cache, templateBlocks)
      case Some(t) =>
        var stored := StoreBlock(cache, size, t, templateName, blockName, now);
        var result := match stored.result
          case Success(f) => Success((f, t))
          case Failure(e) => Failure(e);
        BlockLookup(result, stored.cache, Preloaded(templateBlocks, templateName, t))
  }

  // ---------------------------------------------------------------------------------------
  // Properties of the cache steps

  /** With no context processors the context is `{}` and the cache is not touched. */
  lemma NoProcessorsNoCache(size: int, ttl: int, cache: seq<Entry<Context>>, request: Value, now: int)
    ensures ProcessedContext([], size, ttl, cache, request, now) == Fetched(Success(map[]), cache)
  {
  }

  /** A context-cache hit serves the stored mapping and leaves the cache as it was. */
  lemma ContextHitServesStored(processors: seq<Processor>, size: int, ttl: int,
                               cache: seq<Entry<Context>>, request: Value, now: int)
    requires processors != []
    requires Hit(cache, ContextCacheKey(request), now, ttl).Some?
    ensures ProcessedContext(processors, size, ttl, cache, request, now)
      == Fetched(Success(Hit(cache, ContextCacheKey(request), now, ttl).value), cache)
  {
  }

  /** On a miss the merged context is returned; it is stored, under the request's key and
      the current time, exactly when it is cacheable, and the cache stays within its size. */
  lemma ContextMissMergesAndStores(processors: seq<Processor>, size: int, ttl: int,
                                   cache: seq<Entry<Context>>, request: Value, now: int)
    requires processors != [] && KeysUnique(cache) && WithinCapacity(cache, size) && size >= 1
    requires Hit(cache, ContextCacheKey(request), now, ttl).None?
    ensures var f := ProcessedContext(processors, size, ttl, cache, request, now);
      var merged := Merged(processors, request);
      && (merged.Failure? ==> f == Fetched(Failure(ProcessorRaised(merged.error)), cache))
      && (merged.Success? ==>
            && f.result == Success(merged.value)
            && KeysUnique(f.cache) && |f.cache| <= size
            && (Cacheable(merged.value) ==>
                  Get(f.cache, ContextCacheKey(request)) == Some(Entry(ContextCacheKey(request), now, merged.value)))
            && (!Cacheable(merged.value) ==> f.cache == cache))
  {
    var key := ContextCacheKey(request);
    var merged := Merged(processors, request);
    if merged.Success? && Cacheable(merged.value) {
      StoreBound(cache, size, key, now, merged.value);
      StoreSpec(cache, size, key, now, merged.value);
    }
  }

  /** A block-cache hit returns the cached function without loading the template and does
      not refresh the entry's timestamp. */
  lemma BlockHitNoLoad(cache: seq<Entry<BlockFn>>, size: int, ttl: int, templateName: string,
                       blockName: string, now: int, resolve: string -> Option<Template>)
    requires Hit(cache, BlockKey(templateName, blockName), now, ttl).Some?
    ensures CachedBlockFunc(cache, size, ttl, templateName, blockName, now, resolve)
      == Fetched(Success(Hit(cache, BlockKey(templateName, blockName), now, ttl).value), cache)
  {
  }

  /** A block missing from the loaded template raises `BlockNotFoundError(block, template)`
      and leaves the block cache as it was. */
  lemma MissingBlockLeavesCache(cache: seq<Entry<BlockFn>>, size: int, ttl: int, templateName: string,
                                blockName: string, now: int, resolve: string -> Option<Template>)
    requires Hit(cache, BlockKey(templateName, blockName), now, ttl).None?
    requires resolve(templateName).Some? && blockName !in resolve(templateName).value.blocks
    ensures CachedBlockFunc(cache, size, ttl, templateName, blockName, now, resolve)
      == Fetched(Failure(BlockNotFound(BlockNotFoundError(blockName, templateName, None))), cache)
  {
  }

  /** A block stored on a miss stays within the cache size, is served by later lookups
      within the TTL, and only the oldest entry of a full cache is lost. */
  lemma BlockMissStores(cache: seq<Entry<BlockFn>>, size: int, ttl: int, templateName: string,
                        blockName: string, now: int, resolve: string -> Option<Template>, later: int)
    requires KeysUnique(cache) && WithinCapacity(cache, size) && size >= 1
    requires Hit(cache, BlockKey(templateName, blockName), now, ttl).None?
    requires resolve(templateName).Some? && blockName in resolve(templateName).value.blocks
    requires later - now < ttl
    ensures var f := CachedBlockFunc(cache, size, ttl, templateName, blockName, now, resolve);
      var fn := resolve(templateName).value.blocks[blockName];
      && f.result == Success(fn)
      && KeysUnique(f.cache) && |f.cache| <= size
      && Hit(f.cache, BlockKey(templateName, blockName), later, ttl) == Some(fn)
      && forall k :: k != BlockKey(templateName, blockName) ==>
           Get(f.cache, k) == if Victim(cache, size) == Some(k) then None else Get(cache, k)
  {
    var key := BlockKey(templateName, blockName);
    var fn := resolve(templateName).value.blocks[blockName];
    StoreBound(cache, size, key, now, fn);
    StoreSpec(cache, size, key, now, fn);
    HitAfterStore(cache, size, key, now, fn, later, ttl);
  }

  /** `_get_block_function_and_template` hands back the loaded template with every block
      function it returns, whether the function came from the cache or not. */
  lemma LookupBlockReturnsTemplate(cache: seq<Entry<BlockFn>>, templateBlocks: map<string, set<string>>,
                                   size: int, ttl: int, templateName: string, blockName: string, now: int,
                                   resolve: string -> Option<Template>)
    ensures var l := LookupBlock(cache, templateBlocks, size, ttl, templateName, blockName, now, resolve);
      && (l.result.Success? ==> resolve(templateName) == Some(l.result.value.1))
      && (resolve(templateName).None? ==> l.result == Failure(TemplateLoadFailed(templateName)))
      && (Hit(cache, BlockKey(templateName, blockName), now, ttl).Some? ==> l.cache == cache && l.templateBlocks == templateBlocks)
  {
  }

  /** `_get_block_function_and_template` and `_get_cached_block_func` agree on the function
      and on the cache they leave; the former also hands back the template. */
  lemma LookupBlockAgrees(cache: seq<Entry<BlockFn>>, templateBlocks: map<string, set<string>>,
                          size: int, ttl: int, templateName: string, blockName: string, now: int,
                          resolve: string -> Option<Template>)
    requires resolve(templateName).Some?
    ensures var l := LookupBlock(cache, templateBlocks, size, ttl, templateName, blockName, now, resolve);
      var c := CachedBlockFunc(cache, size, ttl, templateName, blockName, now, resolve);
      && l.cache == c.cache
      && (c.result.Success? <==> l.result.Success?)
      && (c.result.Success? ==> l.result.value == (c.result.value, resolve(templateName).value))
      && (c.result.Failure? ==> l.result == Failure(c.result.error))
  {
  }

  // ---------------------------------------------------------------------------------------
  // Arguments of TemplateResponse and the template context

  /** The seven values `_parse_*_args` return. */
  datatype TemplateArgs = TemplateArgs(request: Value, name: Value, context: Value, statusCode: Value,
                                       headers: Value, mediaType: Value, background: Value)

  datatype ArgsError =
      /** `KeyError: 'name'` */
    | MissingName
      /** `AttributeError`: the `context` given is not a dict, so it has no `get` */
    | ContextWithoutGet(context: Value)

  /** `args[i] if len(args) > i else kwargs.get(key, default)`. */
  function ArgOr(args: seq<Value>, i: nat, kwargs: map<string, Value>, key: string, default: Value): Value {
    if |args| > i then args[i] else if key in kwargs then kwargs[key] else default
  }

  /** `_parse_positional_args`: position first, then keyword, then default. */
  function ParsePositionalArgs(args: seq<Value>, kwargs: map<string, Value>): (r: Result<TemplateArgs, ArgsError>)
    requires |args| >= 1
    ensures r.Failure? <==> |args| <= 1 && "name" !in kwargs
    ensures r.Failure? ==> r.error == MissingName
    ensures r.Success? ==> r.value.request == args[0]
    ensures r.Success? ==> r.value.name == if |args| > 1 then args[1] else kwargs["name"]
    ensures r.Success? && |args| > 2 ==> r.value.context == args[2]
    ensures r.Success? && |args| <= 2 && "context" !in kwargs ==> r.value.context == DictValue(map[])
    ensures r.Success? && |args| <= 3 && "status_code" !in kwargs ==> r.value.statusCode == IntValue(200)
  {
    if |args| <= 1 && "name" !in kwargs then Failure(MissingName)
    else Success(TemplateArgs(
      args[0],
      ArgOr(args, 1, kwargs, "name", NoneValue),
      ArgOr(args, 2, kwargs, "context", DictValue(map[])),
      ArgOr(args, 3, kwargs, "status_code", IntValue(200)),
      ArgOr(args, 4, kwargs, "headers", NoneValue),
      ArgOr(args, 5, kwargs, "media_type", NoneValue),
      ArgOr(args, 6, kwargs, "background", NoneValue)))
  }

  /** `_parse_keyword_args`.  `kwargs.get("request", context.get("request"))` evaluates
      `context.get` first, so a context that is not a dict fails even when `request` is given. */
  function ParseKeywordArgs(kwargs: map<string, Value>): (r: Result<TemplateArgs, ArgsError>)
    ensures r.Success? <==> "name" in kwargs && ("context" !in kwargs || kwargs["context"].DictValue?)
    ensures "context" in kwargs && !kwargs["context"].DictValue? ==> r == Failure(ContextWithoutGet(kwargs["context"]))
    ensures r.Failure? && r.error.MissingName? ==> "name" !in kwargs
    ensures r.Success? ==> "name" in kwargs && r.value.name == kwargs["name"] && r.value.context.DictValue?
    ensures r.Success? && "request" in kwargs ==> r.value.request == kwargs["request"]
    ensures r.Success? && "status_code" !in kwargs ==> r.value.statusCode == IntValue(200)
  {
    var context := if "context" in kwargs then kwargs["context"] else DictValue(map[]);
    if !context.DictValue? then Failure(ContextWithoutGet(context))
    else
      var fromContext := if "request" in context.entries then context.entries["request"] else NoneValue;
      var request := if "request" in kwargs then kwargs["request"] else fromContext;
      if "name" !in kwargs then Failure(MissingName)
      else Success(TemplateArgs(
        request,
        kwargs["name"],
        context,
        ArgOr([], 0, kwargs, "status_code", IntValue(200)),
        ArgOr([], 0, kwargs, "headers", NoneValue),
        ArgOr([], 0, kwargs, "media_type", NoneValue),
        ArgOr([], 0, kwargs, "background", NoneValue)))
  }

  /** `_parse_template_args`. */
  function ParseTemplateArgs(args: seq<Value>, kwargs: map<string, Value>): (r: Result<TemplateArgs, ArgsError>)
    ensures r.Success? ==> |args| >= 2 || "name" in kwargs
    ensures r.Success? && args != [] ==> r.value.request == args[0]
    ensures r.Success? && args == [] ==> r.value.context.DictValue?
  {
    if args != [] then ParsePositionalArgs(args, kwargs) else ParseKeywordArgs(kwargs)
  }

  /** Passing request, name and a dict context by position or by keyword gives the same
      arguments; a context that is not a dict is accepted only by position. */
  lemma PositionalMatchesKeyword(request: Value, name: Value, context: Value, kwargs: map<string, Value>)
    requires "request" !in kwargs && "name" !in kwargs && "context" !in kwargs
    ensures var byKeyword := ParseTemplateArgs([], kwargs["request" := request]["name" := name]["context" := context]);
      && ParseTemplateArgs([request, name, context], kwargs).Success?
      && (context.DictValue? ==> byKeyword == ParseTemplateArgs([request, name, context], kwargs))
      && (!context.DictValue? ==> byKeyword == Failure(ContextWithoutGet(context)))
  {
  }

  /** Without a `request` keyword, the request is taken from the context dict, else `None`. */
  lemma KeywordRequestFromContext(kwargs: map<string, Value>, entries: map<string, Value>)
    requires "request" !in kwargs && "name" in kwargs
    requires "context" in kwargs && kwargs["context"] == DictValue(entries)
    ensures ParseKeywordArgs(kwargs).Success?
    ensures ParseKeywordArgs(kwargs).value.request == if "request" in entries then entries["request"] else NoneValue
  {
  }

  /** The name is required: without it both parsers raise `KeyError`. */
  lemma NameRequired(args: seq<Value>, kwargs: map<string, Value>)
    requires |args| <= 1 && "name" !in kwargs
    requires args == [] ==> !("context" in kwargs && !kwargs["context"].DictValue?)
    ensures ParseTemplateArgs(args, kwargs) == Failure(MissingName)
  {
  }

  // ---------------------------------------------------------------------------------------
  // render_fragment's outcome

  /** Rendering the found block with the pooled context: `template.new_context(ctx)` and
      `_render_block_content`, given as `render`. */
  function RenderStep(found: Result<(BlockFn, Template), Error>, data: Context,
                      render: (BlockFn, Template, Context) -> Result<string, string>): Result<string, Error>
  {
    match found
    case Failure(e) => Failure(e)
    case Success(ft) =>
      match render(ft.0, ft.1, data)
      case Success(s) => Success(s)
      case Failure(m) => Failure(RenderFailed(m))
  }

  /** `env.handle_exception()` re-raises; `render_fragment` lets `BlockNotFoundError` through
      and wraps every other error in a `RuntimeError` naming the fragment. */
  function FragmentOutcome(templateName: string, blockName: string, inner: Result<string, Error>): Result<string, Error> {
    match inner
    case Success(s) => Success(s)
    case Failure(e) =>
      if e.BlockNotFound? then Failure(e)
      else Failure(FragmentFailed("Error rendering fragment '" + blockName + "' in template '"
                                  + templateName + "': " + ErrorText(e)))
  }

  /** Only `BlockNotFoundError` escapes `render_fragment` unwrapped. */
  lemma FragmentErrorsWrapped(templateName: string, blockName: string, inner: Result<string, Error>)
    ensures var r := FragmentOutcome(templateName, blockName, inner);
      && (inner.Success? ==> r == inner)
      && (inner.Failure? && inner.error.BlockNotFound? ==> r == inner)
      && (inner.Failure? && !inner.error.BlockNotFound? ==> r.Failure? && r.error.FragmentFailed?)
  {
  }

  // ---------------------------------------------------------------------------------------
  // The templates object

  const DefaultContextCacheSize: int := 128
  const DefaultContextCacheTtl: int := 300
  const DefaultFragmentCacheSize: int := 64
  const DefaultFragmentCacheTtl: int := 600
  const DefaultContextPoolSize: int := 10
  const DefaultFragmentStringioThreshold: int := 1024

  /** The pooled dict `_context_pool.pop()` takes, if any. */
  function Top(pool: seq<Dict>): set<Dict> {
    if pool == [] then {} else {pool[|pool| - 1]}
  }

  class Templates {
    const contextProcessors: seq<Processor>
    const contextCacheSize: int
    const contextCacheTtl: int
    const fragmentCacheSize: int
    const fragmentCacheTtl: int
    const contextPoolSize: int
    const fragmentStringioThreshold: int

    var contextCache: seq<Entry<Context>>
    var blockCache: seq<Entry<BlockFn>>
    var templateBlocks: map<string, set<string>>
    var contextPool: seq<Dict>

    /** Each cache holds a key once and stays within its size; the pool stays within its size
        and holds each dict once, so a dict handed out is never also still pooled. */
    ghost predicate Valid()
      reads this
    {
      && KeysUnique(contextCache) && WithinCapacity(contextCache, contextCacheSize)
      && KeysUnique(blockCache) && WithinCapacity(blockCache, fragmentCacheSize)
      && (|contextPool| <= contextPoolSize || contextPool == [])
      && (forall i, j :: 0 <= i < j < |contextPool| ==> contextPool[i] != contextPool[j])
    }

    constructor (contextProcessors: seq<Processor>, contextCacheSize: int, contextCacheTtl: int,
                 fragmentCacheSize: int, fragmentCacheTtl: int, contextPoolSize: int,
                 fragmentStringioThreshold: int)
      ensures Valid()
      ensures this.contextProcessors == contextProcessors
      ensures this.contextCacheSize == contextCacheSize && this.contextCacheTtl == contextCacheTtl
      ensures this.fragmentCacheSize == fragmentCacheSize && this.fragmentCacheTtl == fragmentCacheTtl
      ensures this.contextPoolSize == contextPoolSize
      ensures this.fragmentStringioThreshold == fragmentStringioThreshold
      ensures contextCache == [] && blockCache == [] && templateBlocks == map[] && contextPool == []
    {
      this.contextProcessors := contextProcessors;
      this.contextCacheSize := contextCacheSize;
      this.contextCacheTtl := contextCacheTtl;
      this.fragmentCacheSize := fragmentCacheSize;
      this.fragmentCacheTtl := fragmentCacheTtl;
      this.contextPoolSize := contextPoolSize;
      this.fragmentStringioThreshold := fragmentStringioThreshold;
      contextCache := [];
      blockCache := [];
      templateBlocks := map[];
      contextPool := [];
    }

    /** The shared store step: evict the oldest entry of a full cache, then write. */
    static method StoreEntry<V>(cache: seq<Entry<V>>, size: int, key: string, now: int, value: V)
      returns (r: Option<seq<Entry<V>>>)
      requires KeysUnique(cache) && WithinCapacity(cache, size)
      ensures r == Store(cache, size, key, now, value)
      ensures r.Some? ==> KeysUnique(r.value) && WithinCapacity(r.value, size)
    {
      if Store(cache, size, key, now, value).Some? {
        StoreBound(cache, size, key, now, value);
        StoreSpec(cache, size, key, now, value);
      }
      var remaining := cache;
      if |cache| >= size {
        if cache == [] {
          return None;
        }
        var oldest := FindOldest(cache);
        remaining := cache[..oldest] + cache[oldest + 1..];
      }
      match IndexOf(remaining, key)
      case Some(j) =>
        r := Some(remaining[j := Entry(key, now, value)]);
      case None =>
        r := Some(remaining + [Entry(key, now, value)]);
    }

    method GetProcessedContext(request: Value, now: int) returns (r: Result<Context, Error>)
      requires Valid()
      modifies this
      ensures Valid()
      ensures var f := ProcessedContext(contextProcessors, contextCacheSize, contextCacheTtl,
                                        old(contextCache), request, now);
        r == f.result && contextCache == f.cache
      ensures blockCache == old(blockCache) && templateBlocks == old(templateBlocks)
      ensures contextPool == old(contextPool)
    {
      if contextProcessors == [] {
        return Success(map[]);
      }
      var key := ContextCacheKey(request);
      match Get(contextCache, key) {
        case Some(e) =>
          if now - e.time < contextCacheTtl {
            return Success(e.value);
          }
        case None =>
      }
      var merged := RunProcessors(contextProcessors, request);
      if merged.Failure? {
        return Failure(ProcessorRaised(merged.error));
      }
      var context := merged.value;
      var cacheable := IsContextCacheable(context);
      if cacheable {
        var stored := StoreEntry(contextCache, contextCacheSize, key, now, context);
        if stored.None? {
          return Failure(EmptyMin);
        }
        contextCache := stored.value;
      }
      r := Success(context);
    }

    method GetPooledContext(data: Context) returns (ctx: Dict)
      requires Valid()
      modifies this, Top(contextPool)
      ensures Valid()
      ensures ctx.items == data
      ensures ctx !in contextPool
      ensures old(contextPool) == [] ==> fresh(ctx) && contextPool == []
      ensures old(contextPool) != [] ==>
        ctx == old(contextPool)[|old(contextPool)| - 1] && contextPool == old(contextPool)[..|old(contextPool)| - 1]
      ensures contextCache == old(contextCache) && blockCache == old(blockCache)
      ensures templateBlocks == old(templateBlocks)
    {
      if contextPool != [] {
        ctx := contextPool[|contextPool| - 1];
        contextPool := contextPool[..|contextPool| - 1];
        ctx.items := map[];
        ctx.items := ctx.items + data;
      } else {
        ctx := new Dict(data);
      }
    }

    method ReturnToPool(ctx: Dict)
      requires Valid()
      requires ctx !in contextPool
      modifies this, ctx
      ensures Valid()
      ensures old(|contextPool|) < contextPoolSize ==> ctx.items == map[] && contextPool == old(contextPool) + [ctx]
      ensures old(|contextPool|) >= contextPoolSize ==> ctx.items == old(ctx.items) && contextPool == old(contextPool)
      ensures contextCache == old(contextCache) && blockCache == old(blockCache)
      ensures templateBlocks == old(templateBlocks)
    {
      if |contextPool| < contextPoolSize {
        ctx.items := map[];
        contextPool := contextPool + [ctx];
      }
    }

    method GetCachedBlockFunc(templateName: string, blockName: string, now: int,
                              resolve: string -> Option<Template>)
      returns (r: Result<BlockFn, Error>, loads: nat)
      requires Valid()
      modifies this
      ensures Valid()
      ensures var f := CachedBlockFunc(old(blockCache), fragmentCacheSize, fragmentCacheTtl,
                                       templateName, blockName, now, resolve);
        r == f.result && blockCache == f.cache
      ensures loads == if Hit(old(blockCache), BlockKey(templateName, blockName), now, fragmentCacheTtl).Some? then 0 else 1
      ensures contextCache == old(contextCache) && templateBlocks == old(templateBlocks)
      ensures contextPool == old(contextPool)
    {
      var key := BlockKey(templateName, blockName);
      loads := 0;
      match Get(blockCache, key) {
        case Some(e) =>
          if now - e.time < fragmentCacheTtl {
            return Success(e.value), 0;
          }
        case None =>
      }
      var template := resolve(templateName);
      loads := 1;
      if template.None? {
        return Failure(TemplateLoadFailed(templateName)), loads;
      }
      var t := template.value;
      if blockName !in t.blocks {
        return Failure(BlockNotFound(BlockNotFoundError(blockName, templateName, None))), loads;
      }
      var blockFunc := t.blocks[blockName];
      var stored := StoreEntry(blockCache, fragmentCacheSize, key, now, blockFunc);
      if stored.None? {
        return Failure(EmptyMin), loads;
      }
      blockCache := stored.value;
      r := Success(blockFunc);
    }

    method PreloadTemplateBlocks(template: Template, templateName: string)
      requires Valid()
      modifies this
      ensures Valid()
      ensures templateBlocks == Preloaded(old(templateBlocks), templateName, template)
      ensures old(templateName !in templateBlocks) ==>
        forall b :: ValidateBlockExists(templateName, b) <==> b in template.blocks
      ensures contextCache == old(contextCache) && blockCache == old(blockCache)
      ensures contextPool == old(contextPool)
    {
      if templateName !in templateBlocks {
        templateBlocks := templateBlocks[templateName := template.blocks.Keys];
      }
    }

    /** `_validate_block_exists`: true for a template not yet seen, else set membership. */
    function ValidateBlockExists(templateName: string, blockName: string): (r: bool)
      reads this
      ensures !r ==> templateName in templateBlocks
      ensures templateName in templateBlocks ==> (r <==> blockName in templateBlocks[templateName])
    {
      templateName !in templateBlocks || blockName in templateBlocks[templateName]
    }

    /** `_should_use_stringio`. */
    function ShouldUseStringio(estimatedSize: int): bool {
      estimatedSize > fragmentStringioThreshold
    }

    /** StringIO assembly is chosen exactly above the threshold, and for larger sizes too. */
    lemma StringioAboveThreshold(estimatedSize: int, larger: int)
      requires estimatedSize <= larger
      ensures ShouldUseStringio(estimatedSize) ==> ShouldUseStringio(larger)
      ensures !ShouldUseStringio(fragmentStringioThreshold) && ShouldUseStringio(fragmentStringioThreshold + 1)
    {
    }

    method GetBlockFunctionAndTemplate(templateName: string, blockName: string, now: int,
                                       resolve: string -> Option<Template>)
      returns (r: Result<(BlockFn, Template), Error>, loads: nat)
      requires Valid()
      modifies this
      ensures Valid()
      ensures BlockLookup(r, blockCache, templateBlocks)
        == LookupBlock(old(blockCache), old(templateBlocks), fragmentCacheSize, fragmentCacheTtl,
                       templateName, blockName, now, resolve)
      ensures loads == 1
      ensures contextCache == old(contextCache) && contextPool == old(contextPool)
    {
      var key := BlockKey(templateName, blockName);
      var blockRenderFunc: Option<BlockFn> := None;
      var template: Option<Template> := None;
      loads := 0;
      match Get(blockCache, key) {
        case Some(e) =>
          if now - e.time < fragmentCacheTtl {
            blockRenderFunc := Some(e.value);
          }
        case None =>
      }
      if blockRenderFunc.None? {
        template := resolve(templateName);
        loads := loads + 1;
        if template.None? {
          return Failure(TemplateLoadFailed(templateName)), loads;
        }
        var t := template.value;
        PreloadTemplateBlocks(t, templateName);
        if blockName !in t.blocks {
          return Failure(BlockNotFound(BlockNotFoundError(blockName, templateName, None))), loads;
        }
        blockRenderFunc := Some(t.blocks[blockName]);
        var stored := StoreEntry(blockCache, fragmentCacheSize, key, now, t.blocks[blockName]);
        if stored.None? {
          return Failure(EmptyMin), loads;
        }
        blockCache := stored.value;
      }
      if template.None? {
        template := resolve(templateName);
        loads := loads + 1;
        if template.None? {
          return Failure(TemplateLoadFailed(templateName)), loads;
        }
      }
      r := Success((blockRenderFunc.value, template.value));
    }

    method RenderFragment(templateName: string, blockName: string, data: Context, now: int,
                          resolve: string -> Option<Template>,
                          render: (BlockFn, Template, Context) -> Result<string, string>)
      returns (r: Result<string, Error>)
      requires Valid()
      modifies this, Top(contextPool)
      ensures Valid()
      ensures !old(ValidateBlockExists(templateName, blockName)) ==>
        && r == Failure(BlockNotFound(BlockNotFoundError(blockName, templateName, None)))
        && contextPool == old(contextPool) && blockCache == old(blockCache)
        && templateBlocks == old(templateBlocks)
      ensures old(ValidateBlockExists(templateName, blockName)) ==>
        var l := LookupBlock(old(blockCache), old(templateBlocks), fragmentCacheSize, fragmentCacheTtl,
                             templateName, blockName, now, resolve);
        && blockCache == l.cache && templateBlocks == l.templateBlocks
        && r == FragmentOutcome(templateName, blockName, RenderStep(l.result, data, render))
        && (old(contextPool) != [] ==> contextPool == old(contextPool))
        && (old(contextPool) == [] ==> |contextPool| == (if contextPoolSize > 0 then 1 else 0))
        && (contextPool != [] ==> contextPool[|contextPool| - 1].items == map[])
      ensures contextCache == old(contextCache)
    {
      if !ValidateBlockExists(templateName, blockName) {
        return Failure(BlockNotFound(BlockNotFoundError(blockName, templateName, None)));
      }
      var ctx := GetPooledContext(data);
      var found, _ := GetBlockFunctionAndTemplate(templateName, blockName, now, resolve);
      var inner: Result<string, Error>;
      match found {
        case Failure(e) =>
          inner := Failure(e);
        case Success(ft) =>
          var rendered := render(ft.0, ft.1, ctx.items);
          if rendered.Success? {
            inner := Success(rendered.value);
          } else {
            inner := Failure(RenderFailed(rendered.error));
          }
      }
      ReturnToPool(ctx);
      r := FragmentOutcome(templateName, blockName, inner);
    }

    method PrepareTemplateContext(context: Dict?, request: Value, now: int) returns (r: Result<Dict, Error>)
      requires Valid()
      modifies this, context
      ensures Valid()
      ensures var f := ProcessedContext(contextProcessors, contextCacheSize, contextCacheTtl,
                                        old(contextCache), request, now);
        var given := if context == null then map[] else old(context.items);
        var withRequest := if "request" in given then given else given["request" := request];
        && contextCache == f.cache
        && (f.result.Failure? ==> r == Failure(f.result.error)
                                  && (context != null ==> context.items == withRequest))
        && (f.result.Success? ==> r.Success?
                                  && r.value.items == (if f.result.value != map[] then withRequest + f.result.value else withRequest))
      ensures r.Success? && context != null ==> r.value == context
      ensures r.Success? && context == null ==> fresh(r.value)
      ensures blockCache == old(blockCache) && templateBlocks == old(templateBlocks)
      ensures contextPool == old(contextPool)
    {
      var ctx: Dict;
      if context == null {
        ctx := new Dict(map[]);
      } else {
        ctx := context;
      }
      if "request" !in ctx.items {
        ctx.items := ctx.items["request" := request];
      }
      var processed := GetProcessedContext(request, now);
      if processed.Failure? {
        return Failure(processed.error);
      }
      if processed.value != map[] {
        ctx.items := ctx.items + processed.value;
      }
      r := Success(ctx);
    }
  }
}
