# starlette-async-jinja in Dafny

This project models the sequential core of `starlette_async_jinja` and proves properties of
the model. That core is an async Jinja2 integration for Starlette, and it has three parts.

- **The response layer** (`AsyncJinja2Templates`) has three caches, each keyed by a string
  and holding `(timestamp, value)` entries in Python dict insertion order:
  - a block (fragment) render-function cache, keyed by `"<template>:<block>"`;
  - a per-request context cache, keyed by `"<method>:<path>"`;
  - a bounded pool of reusable context dicts.

  Around them sit the block-name fast path of `render_fragment`, the StringIO threshold,
  the positional and keyword argument parsers of `TemplateResponse`, and the preparation
  of a template context. Module `Responses` holds the class `Templates`. Module
  `TimedEntries` holds the entry sequence the caches share, with `min()`'s first-minimum
  eviction.
- **The async code generator** (`AsyncCodeGenerator`) covers `visit_Block`,
  `visit_Extends`, `visit_Include` and `_import_common`. Each is a method of the class
  `Compiler.CodeGenerator`, whose state is:
  - the emitted lines, each an indentation level and a text;
  - the indentation level;
  - `extends_so_far` and `has_known_extends`.

  Each method is proved equal to a step function on that state. The lemmas about the step
  functions state:
  - which lines each node kind emits;
  - when `visit_Extends` fails, stops compilation or continues;
  - that every run of emitted lines is well nested at the level the visitor started at.
- **Template resolution** goes environment → loader → bytecode cache.
  - `Environment.AsyncEnvironment` caches templates under `(loader id, name)`, with
    `auto_reload` staleness and an in-place merge of the caller's globals.
  - `Loaders.Loader.Load` reuses the bytecode cache's code or compiles and writes it back.
  - `Bccache.RedisBytecodeCache` keeps bucket dumps in a Redis store (a map) under
    `prefix + ":" + key`.

Python's `repr()` of a string, which the error messages and the generated code use, is
modelled in `PyRepr` together with its inverse.

Time is an integer `now` passed to each call. Template loading from the response layer is
a function `resolve` from a name to the template or `None`, where `None` means loading
raised. An up-to-date check is answered by an oracle `checks`: the value that awaiting the
check's result gives, or `None` when that result cannot be awaited. Jinja's
`is_up_to_date` is `True` for a template without a check, and `await True` raises
`TypeError`, so with `auto_reload` on such a cached template makes the lookup raise.
A context processor returns a mapping or raises. The hashes, `compile` and
`join_path` are functions the objects are given. A raised exception is a `Failure` of a
`Result`.

## Model

| member | source | states |
|---|---|---|
| Responses.BlockNotFoundMessage | starlette_async_jinja/responses.py:26-35 | with no message, `str(error)` is `Block '<block>' not found in template '<template>'` with both names verbatim |
| Responses.ExplicitBlockMessage | starlette_async_jinja/responses.py:32-35 | a non-empty explicit message replaces the default one |
| Responses.ContextCacheKeyDistinguishes | starlette_async_jinja/responses.py:115-121 | two requests share a context-cache key iff they agree on method and on path (`url.path`, else `str(request)`) |
| Responses.ContextCacheKeyFallback | starlette_async_jinja/responses.py:115-121 | without a `url` the key uses `str(request)`; without a `method` it uses `GET` |
| Responses.BlockKeyDistinguishes | starlette_async_jinja/responses.py:169 | two (template, block) pairs share a block-cache key iff they are equal |
| Responses.IsContextCacheable | starlette_async_jinja/responses.py:123-127 | the scan answers true iff no context value has both `method` and `url` |
| Responses.RunProcessors | starlette_async_jinja/responses.py:138-142 | the processor loop builds exactly the in-order merge of the non-empty processor results, or stops with the first exception a processor raises |
| Responses.MergedKeys | starlette_async_jinja/responses.py:138-142 | when no processor raises, a key is in the merged context iff some processor returned it |
| Responses.MergedLastWins | starlette_async_jinja/responses.py:138-142 | when no processor raises, a key's merged value comes from the last processor that returned it |
| Responses.MergedSucceeds | starlette_async_jinja/responses.py:139-140 | the loop completes iff no processor raises |
| Responses.MergedFirstFailure | starlette_async_jinja/responses.py:139-140 | the exception that escapes is that of the first processor to raise |
| Responses.ProcessedContext | starlette_async_jinja/responses.py:129-151 | a failing call leaves the context cache as it was and fails only with `min()`'s `ValueError` or a processor's exception; only a cacheable context is ever stored |
| Responses.NoProcessorsNoCache | starlette_async_jinja/responses.py:130-131 | with no processors the result is `{}` and the context cache is untouched |
| Responses.ContextHitServesStored | starlette_async_jinja/responses.py:132-137 | a fresh entry is served as stored and the cache is left unchanged |
| Responses.ContextMissMergesAndStores | starlette_async_jinja/responses.py:138-151 | on a miss, a processor's exception propagates and leaves the cache unchanged; otherwise the merged context is returned, and it is stored under the request's key with time `now` iff it is cacheable, else the cache is unchanged |
| Responses.Templates.GetProcessedContext | starlette_async_jinja/responses.py:129-151 | result and new context cache are those of `ProcessedContext`; keys stay unique and the cache within its size; nothing else changes |
| Responses.Templates.StoreEntry | starlette_async_jinja/responses.py:144-149 | the shared store step keeps the cache's keys unique and its size within the bound |
| TimedEntries.FindOldest | starlette_async_jinja/responses.py:145-147 | the scan finds the first entry in insertion order with the smallest timestamp |
| TimedEntries.OldestIndex | starlette_async_jinja/responses.py:184-186 | the evicted entry has the minimum timestamp and no earlier entry has it |
| TimedEntries.RemoveSpec | starlette_async_jinja/responses.py:187 | `del` drops exactly that key, keeps every other key's entry and leaves the keys unique |
| TimedEntries.PutSpec | starlette_async_jinja/responses.py:189 | assignment makes the key hold the new time and value, adds it to the key set, grows the cache only for a new key, and changes no other key's entry |
| TimedEntries.StoreFails | starlette_async_jinja/responses.py:144-148 | `min()` raises exactly when an empty cache with size ≤ 0 is asked to store |
| TimedEntries.StoreSpec | starlette_async_jinja/responses.py:183-189 | after a store the key holds the new value and time; at most one other key, the oldest, is gone |
| TimedEntries.StoreBound | starlette_async_jinja/responses.py:255-261 | a store into a cache within its size leaves it within its size |
| TimedEntries.HitAfterStore | starlette_async_jinja/responses.py:172-175 | a stored value is served until `ttl` has passed since its write time |
| TimedEntries.EvictsEarliestWrite | starlette_async_jinja/responses.py:183-189 | with room for two entries, a third store evicts the earliest written key |
| TimedEntries.RestoreEvictsAnother | starlette_async_jinja/responses.py:183-189 | re-storing an expired key that is still present in a full cache evicts another key |
| Responses.BlockHitNoLoad | starlette_async_jinja/responses.py:172-175 | a fresh block-cache hit returns the cached function without loading and leaves the cache unchanged |
| Responses.MissingBlockLeavesCache | starlette_async_jinja/responses.py:177-179 | a block absent from the loaded template raises `BlockNotFoundError(block, template)` and leaves the cache unchanged |
| Responses.BlockMissStores | starlette_async_jinja/responses.py:181-189 | a miss stores the template's block function stamped `now`, within the size bound, served by later lookups until it expires |
| Responses.Templates.GetCachedBlockFunc | starlette_async_jinja/responses.py:166-190 | result and new block cache are those of `CachedBlockFunc`; the template is loaded iff there was no fresh hit |
| Responses.CachedBlockFunc | starlette_async_jinja/responses.py:166-190 | a failing call leaves the block cache as it was; the function returned is the fresh cached one or the loaded template's own block |
| Responses.Templates.PreloadTemplateBlocks | starlette_async_jinja/responses.py:192-199 | block names are recorded only the first time; after that, validation is membership in the template's blocks |
| Responses.PreloadedKeepsFirst | starlette_async_jinja/responses.py:192-194 | the first template recorded under a name fixes the block names validation checks; a later template under that name does not replace them |
| Responses.Templates.ValidateBlockExists | starlette_async_jinja/responses.py:196-199 | only a template already recorded can fail validation; for a recorded one, it passes exactly for its recorded block names |
| Responses.Templates.StringioAboveThreshold | starlette_async_jinja/responses.py:201-202 | StringIO is chosen exactly above the threshold, monotonically in the size |
| Responses.LookupBlockReturnsTemplate | starlette_async_jinja/responses.py:246-266 | every successful lookup returns the loaded template, on a hit as on a miss |
| Responses.LookupBlockAgrees | starlette_async_jinja/responses.py:241-261 | `_get_block_function_and_template` and `_get_cached_block_func` agree on the function, the error and the new block cache |
| Responses.LookupBlock | starlette_async_jinja/responses.py:233-266 | a success returns the template `get_template_async` gave; a failure leaves the block cache as it was; block names are recorded only for a template not yet recorded and successfully loaded |
| Responses.Templates.GetBlockFunctionAndTemplate | starlette_async_jinja/responses.py:233-266 | result, block cache and block-name record are those of `LookupBlock`; the template is loaded exactly once |
| Responses.FragmentErrorsWrapped | starlette_async_jinja/responses.py:317-327 | only `BlockNotFoundError` leaves `render_fragment` unwrapped; any other error becomes the `RuntimeError` naming block and template |
| Responses.Templates.RenderFragment | starlette_async_jinja/responses.py:288-327 | a failed fast-path validation raises before any pool checkout; otherwise the context is taken from the pool and returned to it whatever the outcome |
| Responses.Templates.GetPooledContext | starlette_async_jinja/responses.py:153-159 | the returned dict equals `data` and is no longer in the pool; it is the popped pooled dict when the pool is non-empty, a fresh copy otherwise; the pool keeps each dict once |
| Responses.Templates.ReturnToPool | starlette_async_jinja/responses.py:161-164 | a dict that is not pooled is cleared and pushed only while the pool is below its size; the pool never exceeds its size and holds each dict once |
| Responses.PositionalMatchesKeyword | starlette_async_jinja/responses.py:336-365 | request, name and context passed by position or by keyword parse to the same values |
| Responses.KeywordRequestFromContext | starlette_async_jinja/responses.py:358-359 | without a `request` keyword, the request comes from the context dict, else `None` |
| Responses.NameRequired | starlette_async_jinja/responses.py:343-360 | without a name both parsers raise `KeyError` |
| Responses.ParsePositionalArgs | starlette_async_jinja/responses.py:343-353 | raises `KeyError` exactly when the name is neither the second argument nor a keyword; the request is the first argument; a positional name or context wins over its keyword; missing context and status code default to `{}` and 200 |
| Responses.ParseKeywordArgs | starlette_async_jinja/responses.py:355-365 | succeeds iff a `name` keyword is given and the context is a dict or absent; a context that is not a dict raises before anything else; a success carries the `name` keyword and a dict context; a `request` keyword wins; the status code defaults to 200 |
| Responses.ParseTemplateArgs | starlette_async_jinja/responses.py:336-341 | no parse succeeds without a name; with positional arguments the request is the first one, without them the context is a dict |
| Responses.Templates.PrepareTemplateContext | starlette_async_jinja/responses.py:367-379 | the request is set only if absent; the processed context overrides; the caller's dict is updated in place, or a fresh one is made for `None` |
| Compiler.QuotedIsRepr | starlette_async_jinja/compiler.py:24 | for an identifier-like block name, `{name!r}` is the name between single quotes |
| Compiler.BlockStepNested | starlette_async_jinja/compiler.py:10-44 | `visit_Block` emits a well-nested run at the current level, and emits nothing iff it is top level with a known parent |
| Compiler.RequiredGuardBeforeRender | starlette_async_jinja/compiler.py:23-43 | a required block's `len(...) <= 1` guard and its raise precede the render line, which is `yield from` only when sync and unbuffered, else a `for event` loop |
| Compiler.CodeGenerator.VisitBlock | starlette_async_jinja/compiler.py:10-44 | the generator's new state is `BlockStep` of the old one |
| Compiler.ExtendsOutcomes | starlette_async_jinja/compiler.py:46-71 | fails exactly outside the top level, changing nothing; exits exactly with a known parent, after the raise; otherwise counts one more extends, sets the known parent iff root level, ends with the block merge, and keeps the level |
| Compiler.RootExtendsSilencesLater | starlette_async_jinja/compiler.py:49-70 | after a root-level extends, later top-level blocks emit nothing and a second extends exits |
| Compiler.ConditionalExtendsGuardsLater | starlette_async_jinja/compiler.py:49-57 | after a top-level non-root extends, a later extends guards its raise with `if parent_template is not None:` and later blocks with `if parent_template is None:` |
| Compiler.CodeGenerator.VisitExtends | starlette_async_jinja/compiler.py:46-71 | the outcome and the generator's new state are `ExtendsStep` of the old state |
| Compiler.IncludeLookupChoice | starlette_async_jinja/compiler.py:77-84 | `get_template` exactly for a string constant, `select_template` exactly for a tuple/list constant or node, else `get_or_select_template` |
| Compiler.IncludeShape | starlette_async_jinja/compiler.py:74-116 | `ignore_missing` wraps the lookup in `try`/`except TemplateNotFound: pass`/`else`; only the sync, context-free body emits no `event` line |
| Compiler.IncludeStepNested | starlette_async_jinja/compiler.py:73-118 | `visit_Include` emits a well-nested run and leaves the level and extends state as they were |
| Compiler.IgnoreMissingNested | starlette_async_jinja/compiler.py:90-97 | the `try`/`except`/`else` form is well nested |
| Compiler.CodeGenerator.VisitInclude | starlette_async_jinja/compiler.py:73-118 | the generator's new state is `IncludeStep` of the old one |
| Compiler.ImportExtendsLine | starlette_async_jinja/compiler.py:120-132 | `_import_common` emits no line of its own: it continues the caller's last line with the template call and keeps the level |
| Compiler.ImportTextHead | starlette_async_jinja/compiler.py:123-125 | the import call starts with `await ` exactly in async mode, then `environment.get_template(` and the template expression |
| Compiler.ImportTextTail | starlette_async_jinja/compiler.py:126-132 | the import call ends with the module call `with context` selects: `make_module[_async]` over the local context, else `_get_default_module[_async](context)` |
| Compiler.CodeGenerator.ImportCommon | starlette_async_jinja/compiler.py:120-132 | the generator's new state is `ImportStep` of the old one |
| Bccache.PrefixRequired | starlette_async_jinja/bccache.py:10-15 | with the default `None` prefix every bucket name fails with `TypeError` |
| Bccache.BucketName | starlette_async_jinja/bccache.py:14-15 | fails iff there is no prefix; a Redis key splits back into the prefix, one `:` and the bucket key |
| Bccache.BucketNameInjective | starlette_async_jinja/bccache.py:14-15 | under one prefix, distinct bucket keys get distinct Redis keys |
| Bccache.PrefixesSeparate | starlette_async_jinja/bccache.py:14-15 | caches with different colon-free prefixes never share a Redis key |
| Bccache.DumpLoadRoundTrip | starlette_async_jinja/bccache.py:17-25 | a dump, which always holds code, read back for the same source checksum gives back that code |
| Bccache.StaleDumpIgnored | starlette_async_jinja/bccache.py:17-20 | a dump read back for a changed source gives no code |
| Bccache.LastWriterWins | starlette_async_jinja/bccache.py:22-25 | of two dumps of one key, the second is what the store holds |
| Bccache.AbsentKeyKeepsCode | starlette_async_jinja/bccache.py:18-20 | a Redis key with no value leaves the bucket's code as it was |
| Bccache.DumpIsolated | starlette_async_jinja/bccache.py:22-25 | dumping one bucket key changes nothing another key loads |
| Bccache.Bucket.BytecodeToString | starlette_async_jinja/bccache.py:24 | an empty bucket raises `TypeError("can't write empty bucket")`; otherwise decoding the dump for its own checksum gives back its code |
| Bccache.Bucket.BytecodeFromString | starlette_async_jinja/bccache.py:19-20 | the bucket takes the stored code only when it was written for its checksum, else it is reset |
| Bccache.RedisBytecodeCache.LoadBytecode | starlette_async_jinja/bccache.py:17-20 | fails iff there is no prefix; otherwise the bucket's code is what its Redis key decodes to, unchanged when the key is absent |
| Bccache.RedisBytecodeCache.DumpBytecode | starlette_async_jinja/bccache.py:22-25 | fails iff there is no prefix (reported first) or the bucket has no code, leaving the store as it was; otherwise the bucket's Redis key is overwritten with its dump |
| Bccache.RedisBytecodeCache.GetBucket | starlette_async_jinja/bccache.py:27-38 | a fresh bucket keyed by `(name, filename)`, checked against `source`, holding what one load finds |
| Bccache.RedisBytecodeCache.SetBucket | starlette_async_jinja/bccache.py:40-41 | the same result and store as `dump_bytecode` |
| Loaders.BaseGetSource | starlette_async_jinja/loaders.py:17-24 | always raises: `RuntimeError` naming the class iff there is no source access, else `TemplateNotFound(template)` |
| Loaders.Loader.GetSource | starlette_async_jinja/loaders.py:17-24 | a loader that does not override `get_source` behaves as the base one |
| Loaders.Loader.ListTemplates | starlette_async_jinja/loaders.py:26-27 | always raises `TypeError("this loader cannot iterate over all templates")` |
| Loaders.Loader.Load | starlette_async_jinja/loaders.py:29-52 | globals default to `{}`; a `get_source` or bytecode-cache error propagates with the store untouched; otherwise the template's code and `uptodate`, whether `compile` ran, how often `set_bucket` ran and the Redis write are those `Planned` gives |
| Loaders.PlannedLoad | starlette_async_jinja/loaders.py:39-52 | a found source compiles iff there is no bytecode cache or the bucket has no code; the template gets the reused or compiled code and the source's `uptodate`; `set_bucket` writes exactly when a cache exists and had no code, and what it writes is found by the next load of the same source |
| Loaders.WriteBackServesNextLoad | starlette_async_jinja/loaders.py:43-49 | once a load has written compiled code back, a load of the same unchanged source finds it |
| Environment.AsyncEnvironment.GetTemplate | starlette_async_jinja/environment.py:20-31 | a given template comes back untouched with no cache, loader or Redis access; a name is joined with `parent` when there is one and then has every outcome `_load_template` has |
| Environment.AsyncEnvironment.LoadTemplate | starlette_async_jinja/environment.py:33-51 | no loader raises `TypeError`; an up-to-date check that cannot be awaited raises `TypeError` with nothing changed; a served template gets non-empty caller globals merged in place, with no loader call; otherwise a loader error propagates with the cache unchanged, or the loader's template (code and `uptodate` as `Planned` gives, the made globals) replaces the cache entry if caching is on, and Redis holds `Planned`'s write |
| Environment.MakeGlobals | starlette_async_jinja/environment.py:48 | made globals hold the keys of both sources, the caller's values winning |
| Environment.MakeGlobalsDefault | starlette_async_jinja/environment.py:48 | without caller globals a loaded template sees the environment's globals |
| Environment.MergedOverrides | starlette_async_jinja/environment.py:45-46 | the in-place merge overrides only the caller's keys and does nothing for empty or missing globals |
| Environment.CacheLookup | starlette_async_jinja/environment.py:40-44 | only a cached template is served, and only with `auto_reload` on can the lookup raise |
| Environment.StoredIsServed | starlette_async_jinja/environment.py:40-50 | a stored template is served for its key without `auto_reload`, and with it while its awaited check answers true |
| Environment.StaleNotServed | starlette_async_jinja/environment.py:42-44 | with `auto_reload`, a template whose awaited check answers false is loaded again |
| Environment.UncheckedRaises | starlette_async_jinja/environment.py:42-44 | with `auto_reload`, a cached template with no check, or with a check whose result cannot be awaited, makes the lookup raise `TypeError`; without `auto_reload` it is served |
| Environment.NoReloadServesAny | starlette_async_jinja/environment.py:42-44 | without `auto_reload`, any cached template is served |
| Environment.LoadersSeparate | starlette_async_jinja/environment.py:39 | templates of different loaders never answer for each other under one name |

## Left out

- HTTP and ASGI plumbing is not modelled: `TemplateResponse`, `_TemplateResponse.__call__`, `renderer`, `render_block`, `generate_render_partial`, `_create_env`/`url_for`, `get_template_async`'s wrapping and `JsonResponse.render` (msgspec). They are I/O and foreign calls.
- Actual rendering is not modelled: `_render_block_content`, `template.new_context` and `env.concat`. The render is a given outcome; only the `_should_use_stringio` decision is kept.
- `env.handle_exception()` is modelled as Jinja's re-raise. A handler that returns a value instead (as a test mocks it) is not modelled.
- `dict(*args, **kwargs)` in `render_fragment` is not modelled: the caller passes the resulting mapping.
- The wall clock and the float TTLs become an integer `now` and integer TTLs.
- `async`/`await`: the model is sequential, with no interleaving of coroutines.
- Responses.ContextCacheKeyFallback: `str()` of a dict-valued request is a fixed stand-in text, because a map does not keep the dict's insertion order.
- PyRepr.Repr escapes only ASCII control characters; Python's escaping of non-printable non-ASCII characters is not modelled.
- Compiler.QuotedIsRepr: block names are taken to be identifiers (no quote, backslash or control character), as Jinja's parser makes them.
- Jinja's `CodeGenerator` internals are opaque text producers: expression visiting, `derive_context`, `dump_local_context` and `simple_write`. So is the debug line-number mapping of `writeline(x, node)`. Jinja's pending-newline state is reduced to "`write` continues the last line".
- Code objects, the `marshal`/`pickle` format and the bytecode magic header are abstract. A Redis value that is not a dump of this format is the single value `Unreadable`.
- `get_cache_key` and `get_source_checksum` are SHA-1 hashes in Jinja. Here they are functions the cache is given.
- `environment.compile` is a total function. Compile errors are not modelled.
- Jinja's template cache is an LRU cache of bounded size. Here it is an unbounded map, so the LRU eviction is not modelled.
- `make_globals` returns a live `ChainMap`. Here it is the merged map, so later changes to the environment's globals are not seen through it.
- The loader's `weakref` is its identity `id`.
- `Responses.Templates.PrepareTemplateContext` is modelled only for a dict or `None` context: another object with `setdefault`/`update` is not modelled. Processors that return `None` are modelled as returning an empty mapping, the same branch in the source.
- A context processor's exception is its message. Its type is not modelled.
- An up-to-date check is known only by its awaited answer. Its own side effects are not modelled, and neither is a synchronous check that raises before it returns.
- Responses.Templates.ReturnToPool: returning a dict that is already pooled is not modelled. The source would push it a second time; its one caller, `render_fragment`, returns the dict it has just taken out.
- Copies (`context.copy()`, `data.copy()`) are values in the model. The aliasing they avoid cannot arise between map values, so it is not modelled.
