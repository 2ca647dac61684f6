/**
 * `AsyncBaseLoader`: finds a template's source and turns it into a `Template`, reusing the
 * bytecode cache's compiled code when the cache has it for this exact source and compiling
 * (then writing the code back) when it does not.  The environment's `compile` and its
 * bytecode cache are given to `Load` by the caller.
 */
module Loaders {
  import opened Wrappers
  import opened Values
  import opened Units
  import opened Bccache

  /** What `get_source` returns: `(source, filename, uptodate)`, the up-to-date check by
      identity. */
  datatype Source = Source(source: string, filename: Option<string>, uptodate: Option<nat>)

  datatype LoadError =
    | NoSourceAccess(className: string)   // RuntimeError
    | TemplateNotFound(name: string)      // jinja2.exceptions.TemplateNotFound
    | CannotListTemplates                 // TypeError
    | BytecodeCacheFailed(cause: BccError)

  /** The error's message. */
  function LoadErrorText(e: LoadError): string {
    match e
    case NoSourceAccess(className) => className + " cannot provide access to the source"
    case TemplateNotFound(name) => name
    case CannotListTemplates => "this loader cannot iterate over all templates"
    case BytecodeCacheFailed(cause) => BccErrorText(cause)
  }

  /** The base class's `get_source`: it never finds a template; a loader without source
      access says so, any other reports the template as not found. */
  function BaseGetSource(className: string, hasSourceAccess: bool, template: string): (r: Result<Source, LoadError>)
    ensures r.Failure?
    ensures !hasSourceAccess <==> r.error.NoSourceAccess?
    ensures !hasSourceAccess ==> LoadErrorText(r.error) == className + " cannot provide access to the source"
    ensures hasSourceAccess ==> r.error.TemplateNotFound? && LoadErrorText(r.error) == template
  {
    if !hasSourceAccess then Failure(NoSourceAccess(className)) else Failure(TemplateNotFound(template))
  }

  /** `environment.compile(source, name, filename)`. */
  type Compiler = (string, string, Option<string>) -> Code

  /** What a successful `load` does, decided by the source and the bytecode cache before it
      runs: the code and up-to-date check the template gets, whether `compile` runs, and the
      Redis key and value `set_bucket` writes, if it runs. */
  datatype LoadPlan = LoadPlan(code: Code, uptodate: Option<nat>, compiled: bool, written: Option<(string, Blob)>)

  /** The Redis store after a plan's write, if any. */
  function WrittenBack(store: map<string, Blob>, written: Option<(string, Blob)>): map<string, Blob> {
    if written.Some? then store[written.value.0 := written.value.1] else store
  }

  class Loader {
    /** The loader's identity, which the environment's template cache keys on. */
    const id: nat
    /** `type(self).__name__`. */
    const className: string
    const hasSourceAccess: bool
    /** A subclass's own `get_source`, when it overrides the base one. */
    const sourceOverride: Option<string -> Result<Source, LoadError>>

    constructor (id: nat, className: string, hasSourceAccess: bool, sourceOverride: Option<string -> Result<Source, LoadError>>)
      ensures this.id == id && this.className == className
      ensures this.hasSourceAccess == hasSourceAccess && this.sourceOverride == sourceOverride
    {
      this.id := id;
      this.className := className;
      this.hasSourceAccess := hasSourceAccess;
      this.sourceOverride := sourceOverride;
    }

    /** `get_source(environment, template)`. */
    function GetSource(template: string): (r: Result<Source, LoadError>)
      ensures sourceOverride.None? ==> r == BaseGetSource(className, hasSourceAccess, template)
    {
      match sourceOverride
      case Some(f) => f(template)
      case None => BaseGetSource(className, hasSourceAccess, template)
    }

    /** `list_templates()`: this loader cannot enumerate its templates. */
    function ListTemplates(): (r: Result<seq<string>, LoadError>)
      ensures r.Failure? && LoadErrorText(r.error) == "this loader cannot iterate over all templates"
    {
      Failure(CannotListTemplates)
    }

    /** The outcome of `load(environment, name, globals)` with `compile` and the bytecode
        cache `bcc`, as a function of the cache's store before the call. */
    function Planned(compile: Compiler, bcc: RedisBytecodeCache?, name: string): Result<LoadPlan, LoadError>
      reads bcc
    {
      match GetSource(name)
      case Failure(e) => Failure(e)
      case Success(s) =>
        var newCode := compile(s.source, name, s.filename);
        if bcc == null then Success(LoadPlan(newCode, s.uptodate, true, None))
        else match bcc.BucketCode(name, s.filename, s.source)
          case Failure(e) => Failure(BytecodeCacheFailed(e))
          case Success(Some(c)) => Success(LoadPlan(c, s.uptodate, false, None))
          case Success(None) =>
            var key := BucketName(bcc.prefix, bcc.cacheKey(name, s.filename)).value;
            Success(LoadPlan(newCode, s.uptodate, true, Some((key, Dump(bcc.sourceChecksum(s.source), newCode)))))
    }

    /** `load(environment, name, globals)`.  `compiled` says whether `compile` ran and
        `dumps` how many times `set_bucket` ran. */
    method Load(compile: Compiler, bcc: RedisBytecodeCache?, name: string, globals: Option<Context>)
      returns (r: Result<Template, LoadError>, compiled: bool, dumps: nat)
      modifies bcc
      ensures var p := old(Planned(compile, bcc, name));
        && (p.Failure? ==> r == Failure(p.error) && !compiled && dumps == 0
                           && (bcc != null ==> bcc.store == old(bcc.store)))
        && (p.Success? ==>
              && r.Success? && fresh(r.value)
              && r.value.code == p.value.code && r.value.uptodate == p.value.uptodate
              && r.value.globals == globals.GetOr(map[])
              && compiled == p.value.compiled
              && dumps == (if p.value.written.Some? then 1 else 0)
              && (bcc != null ==> bcc.store == WrittenBack(old(bcc.store), p.value.written)))
    {
      compiled, dumps := false, 0;
      var globals := globals.GetOr(map[]);
      var src := GetSource(name);
      if src.Failure? {
        return Failure(src.error), compiled, dumps;
      }
      var Source(source, filename, uptodate) := src.value;
      var code: Option<Code> := None;
      var bucket: Bucket? := null;
      if bcc != null {
        var got := bcc.GetBucket(name, filename, source);
        if got.Failure? {
          return Failure(BytecodeCacheFailed(got.error)), compiled, dumps;
        }
        bucket := got.value;
        code := bucket.code;
      }
      if code.None? {
        code := Some(compile(source, name, filename));
        compiled := true;
      }
      if bcc != null && bucket.code.None? {
        bucket.code := code;
        var _ := bcc.SetBucket(bucket);
        dumps := dumps + 1;
      }
      var template := new Template.FromCode(code.value, globals, uptodate);
      return Success(template), compiled, dumps;
    }
  }

  /** A load whose source is found reuses the bytecode cache's code when the cache has it
      for this exact source; otherwise it compiles, and with a cache it writes the new code
      back, so that the next load of unchanged source finds it.  A failing cache fails the
      load. */
  lemma PlannedLoad(loader: Loader, compile: Compiler, bcc: RedisBytecodeCache?, name: string)
    requires loader.GetSource(name).Success?
    ensures var s := loader.GetSource(name).value;
      var found := if bcc == null then Success(None) else bcc.BucketCode(name, s.filename, s.source);
      var p := loader.Planned(compile, bcc, name);
      && (found.Failure? ==> p == Failure(BytecodeCacheFailed(found.error)))
      && (found.Success? ==>
            && p.Success? && p.value.uptodate == s.uptodate
            && (p.value.compiled <==> found.value.None?)
            && p.value.code == (if found.value.Some? then found.value.value else compile(s.source, name, s.filename))
            && (p.value.written.Some? <==> bcc != null && found.value.None?)
            && (p.value.written.Some? ==>
                  FindCode(bcc.prefix, WrittenBack(bcc.store, p.value.written), bcc.cacheKey(name, s.filename),
                           bcc.sourceChecksum(s.source)) == Success(Some(p.value.code))))
  {
    var s := loader.GetSource(name).value;
    if bcc != null && bcc.BucketCode(name, s.filename, s.source) == Success(None) {
      WriteBackServesNextLoad(bcc.prefix, bcc.store, bcc.cacheKey(name, s.filename), bcc.sourceChecksum(s.source),
                              compile(s.source, name, s.filename));
    }
  }

  /** Once a load has compiled a template and written its code back, a later load of the same
      template from unchanged source finds that code: it neither compiles nor writes again. */
  lemma WriteBackServesNextLoad(prefix: Option<string>, store: map<string, Blob>, key: string, checksum: string, code: Code)
    requires prefix.Some?
    ensures FindCode(prefix, store[BucketName(prefix, key).value := Dump(checksum, code)], key, checksum) == Success(Some(code))
  {
    assert store[BucketName(prefix, key).value := Dump(checksum, code)] == Dumped(prefix, store, key, Dump(checksum, code));
    DumpLoadRoundTrip(prefix, store, key, checksum, code);
  }
}
