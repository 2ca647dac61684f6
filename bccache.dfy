/**
 * `AsyncRedisBytecodeCache`: Jinja's bytecode cache kept in Redis.  A bucket (Jinja's
 * `Bucket`) pairs the hash of a template's name and file name with the hash of its source,
 * and holds the compiled code, if any; the cache writes a bucket's dump under the key
 * `prefix + ":" + bucket.key` and reads it back from the same key.  The Redis server is the
 * map `store`; the two hashes Jinja computes (`get_cache_key`, `get_source_checksum`) are
 * functions the cache is given.
 */
module Bccache {
  import opened Wrappers
  import opened Units
  import opened ColonKeys

  /** A Redis value: what `bucket.bytecode_to_string()` writes (the source checksum and the
      code), or bytes that are no such dump (a wrong magic header, unreadable marshal data). */
  datatype Blob = Dump(checksum: string, code: Code) | Unreadable

  datatype BccError =
    | PrefixNotString   // TypeError from `":".join` when the prefix is not a string (the default `None`)
    | EmptyBucket       // TypeError from Jinja's `write_bytecode` for a bucket with no code

  /** The error's message. */
  function BccErrorText(e: BccError): string {
    match e
    case PrefixNotString => "sequence item 0: expected str instance, NoneType found"
    case EmptyBucket => "can't write empty bucket"
  }

  /** `get_bucket_name(key)`: `":".join([prefix, key])`.  The Redis key splits back, at the
      prefix's length, into the prefix, one ':' and the bucket key. */
  function BucketName(prefix: Option<string>, key: string): (r: Result<string, BccError>)
    ensures r.Failure? <==> prefix.None?
    ensures r.Failure? ==> r.error == PrefixNotString
    ensures r.Success? ==>
      var n := |prefix.value|;
      && |r.value| == n + 1 + |key|
      && r.value[..n] == prefix.value && r.value[n] == ':' && r.value[n + 1..] == key
  {
    match prefix
    case None => Failure(PrefixNotString)
    case Some(p) => Success(p + ":" + key)
  }

  /** Jinja's `bucket.bytecode_from_string(blob)`: the stored code when the dump was written
      for this source checksum; otherwise the bucket is reset to no code. */
  function Decoded(blob: Blob, checksum: string): Option<Code> {
    match blob
    case Dump(c, code) => if c == checksum then Some(code) else None
    case Unreadable => None
  }

  /** The code a bucket holds after `load_bytecode` read `name`: unchanged when Redis has no
      value there (`self.get` returned `None`). */
  function Loaded(store: map<string, Blob>, name: string, checksum: string, current: Option<Code>): Option<Code> {
    if name in store then Decoded(store[name], checksum) else current
  }

  /** The code a fresh bucket for `key` and `checksum` ends up with, or the error. */
  function FindCode(prefix: Option<string>, store: map<string, Blob>, key: string, checksum: string): Result<Option<Code>, BccError> {
    match BucketName(prefix, key)
    case Failure(e) => Failure(e)
    case Success(name) => Success(Loaded(store, name, checksum, None))
  }

  /** The store after `dump_bytecode` wrote `blob` for `key`. */
  function Dumped(prefix: Option<string>, store: map<string, Blob>, key: string, blob: Blob): map<string, Blob> {
    match BucketName(prefix, key)
    case Failure(_) => store
    case Success(name) => store[name := blob]
  }

  /** Without a string prefix no bucket name exists, so every load and dump fails. */
  lemma PrefixRequired(key: string)
    ensures BucketName(None, key) == Failure(PrefixNotString)
  {
  }

  /** Under one prefix, distinct bucket keys get distinct Redis keys. */
  lemma BucketNameInjective(p: string, k1: string, k2: string)
    requires BucketName(Some(p), k1) == BucketName(Some(p), k2)
    ensures k1 == k2
  {
    var s := p + ":" + k1;
    assert k1 == s[|p| + 1..];
    assert k2 == (p + ":" + k2)[|p| + 1..];
  }

  /** Two caches whose prefixes differ and hold no ':' never share a Redis key. */
  lemma PrefixesSeparate(p1: string, p2: string, k1: string, k2: string)
    requires ':' !in p1 && ':' !in p2 && p1 != p2
    ensures BucketName(Some(p1), k1) != BucketName(Some(p2), k2)
  {
    if BucketName(Some(p1), k1) == BucketName(Some(p2), k2) {
      JoinLeftInjective(p1, k1, p2, k2);
    }
  }

  /** A dump read back for the same source checksum gives back the code dumped. */
  lemma DumpLoadRoundTrip(prefix: Option<string>, store: map<string, Blob>, key: string, checksum: string, code: Code)
    requires prefix.Some?
    ensures FindCode(prefix, Dumped(prefix, store, key, Dump(checksum, code)), key, checksum) == Success(Some(code))
  {
  }

  /** A dump read back for a changed source gives no code: the template is recompiled. */
  lemma StaleDumpIgnored(prefix: Option<string>, store: map<string, Blob>, key: string, written: string, current: string, code: Code)
    requires prefix.Some? && written != current
    ensures FindCode(prefix, Dumped(prefix, store, key, Dump(written, code)), key, current) == Success(None)
  {
  }

  /** The second of two dumps of the same key is the one that is read back. */
  lemma LastWriterWins(prefix: Option<string>, store: map<string, Blob>, key: string, first: Blob, second: Blob)
    ensures Dumped(prefix, Dumped(prefix, store, key, first), key, second) == Dumped(prefix, store, key, second)
  {
  }

  /** A Redis key with no value leaves the bucket's code as it was. */
  lemma AbsentKeyKeepsCode(store: map<string, Blob>, name: string, checksum: string, current: Option<Code>)
    requires name !in store
    ensures Loaded(store, name, checksum, current) == current
  {
  }

  /** Dumping one bucket key does not change what another bucket key loads. */
  lemma DumpIsolated(p: string, store: map<string, Blob>, k1: string, k2: string, blob: Blob, checksum: string)
    requires k1 != k2
    ensures FindCode(Some(p), Dumped(Some(p), store, k1, blob), k2, checksum) == FindCode(Some(p), store, k2, checksum)
  {
    if BucketName(Some(p), k1) == BucketName(Some(p), k2) {
      BucketNameInjective(p, k1, k2);
    }
  }

  /** Jinja's `Bucket`: the cache key and source checksum it was made for, and its code. */
  class Bucket {
    const key: string
    const checksum: string
    var code: Option<Code>

    /** `Bucket(environment, key, checksum)`, which starts reset. */
    constructor (key: string, checksum: string)
      ensures this.key == key && this.checksum == checksum && code == None
    {
      this.key := key;
      this.checksum := checksum;
      code := None;
    }

    /** `bytecode_to_string()`: an empty bucket cannot be written; otherwise decoding the
        dump for the same checksum gives back the code. */
    function BytecodeToString(): (r: Result<Blob, BccError>)
      reads this
      ensures r.Failure? <==> code.None?
      ensures r.Failure? ==> r.error == EmptyBucket
      ensures r.Success? ==> Decoded(r.value, checksum) == code
    {
      match code
      case None => Failure(EmptyBucket)
      case Some(c) => Success(Dump(checksum, c))
    }

    /** `bytecode_from_string(blob)`. */
    method BytecodeFromString(blob: Blob)
      modifies this
      ensures code == Decoded(blob, checksum)
    {
      code := Decoded(blob, checksum);
    }
  }

  class RedisBytecodeCache {
    const prefix: Option<string>
    /** Jinja's `get_cache_key(name, filename)`. */
    const cacheKey: (string, Option<string>) -> string
    /** Jinja's `get_source_checksum(source)`. */
    const sourceChecksum: string -> string
    /** The values the Redis server holds. */
    var store: map<string, Blob>

    constructor (prefix: Option<string>, cacheKey: (string, Option<string>) -> string, sourceChecksum: string -> string, store: map<string, Blob>)
      ensures this.prefix == prefix && this.cacheKey == cacheKey && this.sourceChecksum == sourceChecksum
      ensures this.store == store
    {
      this.prefix := prefix;
      this.cacheKey := cacheKey;
      this.sourceChecksum := sourceChecksum;
      this.store := store;
    }

    /** What `get_bucket(environment, name, filename, source)` finds for a template. */
    function BucketCode(name: string, filename: Option<string>, source: string): Result<Option<Code>, BccError>
      reads this
    {
      FindCode(prefix, store, cacheKey(name, filename), sourceChecksum(source))
    }

    /** `load_bytecode(bucket)`: reads the bucket's Redis key and, when a value is there,
        decodes it into the bucket. */
    method LoadBytecode(bucket: Bucket) returns (r: Result<(), BccError>)
      modifies bucket
      ensures r.Failure? <==> prefix.None?
      ensures r.Failure? ==> r.error == PrefixNotString
      ensures r.Failure? ==> bucket.code == old(bucket.code)
      ensures r.Success? ==> bucket.code == Loaded(store, BucketName(prefix, bucket.key).value, bucket.checksum, old(bucket.code))
    {
      var name := BucketName(prefix, bucket.key);
      if name.Failure? {
        return Failure(name.error);
      }
      if name.value in store {
        bucket.BytecodeFromString(store[name.value]);
      }
      return Success(());
    }

    /** `dump_bytecode(bucket)`: overwrites the bucket's Redis key with its dump.  The key is
        computed before the dump, so a missing prefix is the error reported first. */
    method DumpBytecode(bucket: Bucket) returns (r: Result<(), BccError>)
      modifies this
      ensures r.Failure? <==> prefix.None? || bucket.code.None?
      ensures r.Failure? ==> r.error == if prefix.None? then PrefixNotString else EmptyBucket
      ensures r.Failure? ==> store == old(store)
      ensures r.Success? ==> store == Dumped(prefix, old(store), bucket.key, bucket.BytecodeToString().value)
    {
      var name := BucketName(prefix, bucket.key);
      if name.Failure? {
        return Failure(name.error);
      }
      var blob := bucket.BytecodeToString();
      if blob.Failure? {
        return Failure(blob.error);
      }
      store := store[name.value := blob.value];
      return Success(());
    }

    /** `get_bucket(environment, name, filename, source)`: a fresh bucket keyed by
        `(name, filename)` and checked against `source`, after exactly one load. */
    method GetBucket(name: string, filename: Option<string>, source: string) returns (r: Result<Bucket, BccError>)
      ensures r.Failure? <==> prefix.None?
      ensures r.Failure? ==> Failure(r.error) == BucketCode(name, filename, source)
      ensures r.Success? ==> fresh(r.value) && r.value.key == cacheKey(name, filename)
      ensures r.Success? ==> r.value.checksum == sourceChecksum(source)
      ensures r.Success? ==> Success(r.value.code) == BucketCode(name, filename, source)
    {
      var key := cacheKey(name, filename);
      var checksum := sourceChecksum(source);
      var bucket := new Bucket(key, checksum);
      var loaded := LoadBytecode(bucket);
      if loaded.Failure? {
        return Failure(loaded.error);
      }
      return Success(bucket);
    }

    /** `set_bucket(bucket)`: exactly `dump_bytecode(bucket)`. */
    method SetBucket(bucket: Bucket) returns (r: Result<(), BccError>)
      modifies this
      ensures r.Failure? <==> prefix.None? || bucket.code.None?
      ensures r.Failure? ==> r.error == if prefix.None? then PrefixNotString else EmptyBucket
      ensures r.Failure? ==> store == old(store)
      ensures r.Success? ==> store == Dumped(prefix, old(store), bucket.key, bucket.BytecodeToString().value)
    {
      r := DumpBytecode(bucket);
    }
  }
}
