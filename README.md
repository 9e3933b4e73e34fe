# go-monsters/monster cache subsystem in Dafny

This project models the cache layer of the go-monsters/monster toolkit and proves
properties of the model:

- **The cache contract** (`cache.dfy`, module `Cache`). It covers the two sentinel errors
  `ErrKeyExpired` and `ErrKeyNotExist`, and the name → constructor registry with
  `RegisterNewCacheImpl` and `NewCache`. It also holds the aggregate error that both
  backends' `GetMulti` build: one `key [k] error: <message>` entry per failed key, in key
  order, joined with `"; "`.
- **The memory backend** (`memory.dfy`, module `Memory`). A class over a map from key to
  item, with lazy expiry: `Get` reports an expired item but leaves it in place. The
  periodic sweep is modelled as one tick, `Sweep`, built from its two phases
  `ExpiredKeys` and `ClearItems`.
- **The file backend** (`file.dfy`, module `FileCache`). Each key lives in one file. The
  file is named by the key's MD5 digest in hex, sharded into one or two levels of
  two-character directories. The file holds an envelope with the value, its expiry
  instant and its last access.
  - Every operation is a method on the class `FileCache`. Each method is proved equal to
    a pure function of the directory tree it starts from (`GetOutcome`, `PutResult` /
    `PutDisk`, `DeleteResult` / `DeleteDisk`, `CreateResult` / `CreateDisk`).
  - Lemmas then state what the source promises about those functions.
- **The HTTP server registry** (`httpserver.dfy`, module `HttpServer`). Its
  unknown-name error is the cache registry's own `cache: unknown impl name …` message,
  exactly as the source writes it.
- **The error helpers** (`merror.dfy`, module `MError`). Every message gets the
  `ERROR, ` prefix. Wrapping a nil error gives nil. A wrap keeps its cause.

Three modules stand in for the parts of Go's standard library the core relies on:

- `fmt.dfy` (module `Fmt`): `fmt.Sprintf` with `%s` and `%%`, and `strings.Join`.
- `strconv.dfy` (module `Strconv`): `strconv.Atoi` and `strconv.Itoa` on 64-bit integers.
- `os.dfy` (module `Os`): a directory tree with `Stat`, `MkdirAll`, `ReadFile`,
  `WriteFile` and `Remove`. A set of refused paths stands for paths where the operating
  system denies permission. A path below a regular file fails with "not a directory", and
  a missing path with "no such file or directory".

Some source behaviour becomes explicit parameters or outcomes:

- Time is the parameter `now`, in nanoseconds.
- A panic is returned as the panic value, and the state is left as it was.
- `NewCache`'s call to the adapter's `Start` is the function parameter `start`.
- JSON decoding of a configuration is taken as already done: the cache receives the
  decoded map, `null` (which Go decodes to a nil map), or the decoder's error.

## Model

| member | source | states |
|---|---|---|
| MError.ErrorOf | internals/logs/merror/error.go:9-13 | the error's message is `ERROR, ` followed by the text |
| MError.ErrorOfFormats | internals/logs/merror/error.go:9-13 | `ErrorOf(msg)` is the text `msg` formatted into `ERROR, %s` |
| MError.Errorf | internals/logs/merror/error.go:15-17 | the result is `ErrorOf` of the formatted text, so its message is the prefix followed by it |
| MError.Wrap | internals/logs/merror/error.go:19-24 | nil stays nil, and only nil gives nil; otherwise the result wraps the given error as its cause; its message is `ERROR, msg: <cause's message>`; the innermost cause is unchanged |
| MError.WrapFormats | internals/logs/merror/error.go:19-24 | the message put in front is `msg` formatted into `ERROR, %s` |
| MError.Wrapf | internals/logs/merror/error.go:26-28 | `Wrap` of the formatted text; nil exactly when the given error is nil |
| MError.Cause | internals/logs/merror/error.go:23 | following the wrapped causes always ends at an error that wraps nothing |
| MError.ErrorOfInjective | internals/logs/merror/error.go:11-13 | two prefixed errors are equal exactly when their texts are equal |
| Cache.SentinelErrors | pkg/cache/cache.go:10-13 | the two sentinels have the messages `ERROR, the key is expired` and `ERROR, the key isn't exist` and are different errors |
| Cache.KeyErrorFormats | pkg/cache/memory/memory.go:51 | a failed key's entry is `key [%s] error: %s` with the key and the error's message filled in |
| Cache.FailureEntriesEmpty | pkg/cache/memory/memory.go:44-61 | no entry is recorded exactly when every key's `Get` succeeded |
| Cache.FailureEntriesComplete | pkg/cache/file/file.go:61-78 | each failed key has its entry, and each entry comes from a failed key |
| Cache.AggregateNilIff | pkg/cache/memory/memory.go:57-60 | the aggregate error is nil exactly when every key succeeded; otherwise its message is `ERROR, ` followed by the entries joined with `"; "` |
| Cache.FailureEntries | pkg/cache/memory/memory.go:48-55 | at most one entry per key; which keys have one, and in what order, is stated by `FailureEntriesComplete` and `FailureEntriesSnoc` |
| Cache.FailureEntriesSnoc | pkg/cache/memory/memory.go:48-55 | one more key appends its `key [k] error: …` entry when its `Get` failed, and nothing when it succeeded |
| Cache.Aggregate | pkg/cache/memory/memory.go:57-60 | nil exactly when there is no entry; otherwise an error whose message is `ERROR, ` followed by the entries joined with `"; "` |
| Cache.AggregateGrows | pkg/cache/memory/memory.go:48-60 | a key that succeeds leaves the aggregate error as it was; a key that fails starts the message with its entry, or appends `"; "` and its entry to it |
| Cache.Slots | pkg/cache/memory/memory.go:45-54 | one slot per key, holding the key's value when its `Get` succeeded and nil otherwise |
| Cache.UnknownImplFormats | pkg/cache/cache.go:44 | the unknown-name error is `merror.Errorf("cache: unknown impl name %s (forgot to import?)", name)` |
| Cache.RegisterPanic | pkg/cache/cache.go:31-37 | a nil constructor panics with the prefixed message; a taken name panics with `Register called twice`; otherwise there is no panic |
| Cache.NewCacheResult | pkg/cache/cache.go:41-53 | an adapter is returned exactly when the name is registered and its `Start` succeeds; otherwise the unknown-name error or the start error is returned |
| Cache.RegisterThenNewCache | pkg/cache/cache.go:31-53 | after a registration without a panic, `NewCache` of that name builds that constructor's adapter (when it starts); other names are unaffected; an existing entry is never replaced; no nil constructor ever enters the table |
| Cache.Registry.Register | pkg/cache/cache.go:31-39 | the panic and the new table are those of `RegisterPanic` and `Registered`; the table never holds a nil constructor |
| Cache.Registry.NewCache | pkg/cache/cache.go:41-53 | the result is `NewCacheResult`: adapter nil exactly when an error is returned, and never a nil constructor |
| Memory.ForeverNeverExpires | pkg/cache/memory/item.go:11-15 | a lifespan of 0 never expires |
| Memory.IsExpire | pkg/cache/memory/item.go:11-17 | a lifespan of 0 never expires; any other lifespan has expired exactly when creation time plus lifespan is before `now` |
| Memory.ExpiryBoundary | pkg/cache/memory/item.go:16 | the comparison is strict: an item is still live when exactly its lifespan has elapsed, and expired one nanosecond later |
| Memory.ExpiryMonotone | pkg/cache/memory/item.go:11-17 | once an item has expired it stays expired |
| Memory.PutThenGet | pkg/cache/memory/memory.go:63-72 | after `Put`, `Get` of the key returns the value while the lifespan has not passed (or is 0), and `ErrKeyExpired` after |
| Memory.PutLeavesOthers | pkg/cache/memory/memory.go:66 | `Put` of one key does not change what any other key reports |
| Memory.DeleteProperties | pkg/cache/memory/memory.go:74-79 | after `Delete` the key is reported missing; deleting again changes nothing; other keys are unaffected |
| Memory.SweepExact | pkg/cache/memory/memory.go:113-136 | a sweep leaves no expired item and keeps every live item unchanged |
| Memory.SweptIsRemoval | pkg/cache/memory/memory.go:130-136 | keeping the live items is the same as deleting the expired keys |
| Memory.SweepOnlyForgetsExpired | pkg/cache/memory/memory.go:97-136 | a sweep changes later `Get` results only by turning "expired" into "missing" |
| Memory.Outcomes | pkg/cache/memory/memory.go:48-49 | the outcome of each key, in order |
| Memory.Wrap64 | pkg/cache/memory/memory.go:90 | 64-bit wrap-around, the identity on values that fit |
| Memory.MemoryCache.constructor | pkg/cache/memory/memory.go:24-26 | an empty map with no sweep interval |
| Memory.MemoryCache.Get | pkg/cache/memory/memory.go:32-42 | `ErrKeyNotExist` for a missing key, `ErrKeyExpired` for an expired one, and otherwise the stored value; the map is unchanged |
| Memory.MemoryCache.GetMulti | pkg/cache/memory/memory.go:44-61 | each slot holds the key's value or nil; the error is nil exactly when every key succeeded, and otherwise it is the aggregate of the failed keys' entries in key order |
| Memory.MemoryCache.Put | pkg/cache/memory/memory.go:63-72 | the key now maps to a new item created now with the given lifespan; nothing else changes; no error |
| Memory.MemoryCache.Delete | pkg/cache/memory/memory.go:74-79 | the key is removed and nothing else changes; no error |
| Memory.MemoryCache.Start | pkg/cache/memory/memory.go:81-95 | an undecodable configuration gives the wrapped `invalid config` error and changes nothing; otherwise the interval is the configured one, or 60 when it is absent or the configuration is `null`, and the duration is that many seconds in wrapped 64-bit nanoseconds |
| Memory.MemoryCache.ExpiredKeys | pkg/cache/memory/memory.go:119-128 | exactly the keys expired at `now`, each once |
| Memory.MemoryCache.ClearItems | pkg/cache/memory/memory.go:130-136 | exactly the listed keys are removed |
| Memory.MemoryCache.Sweep | pkg/cache/memory/memory.go:97-116 | an interval below one does nothing; otherwise the items afterwards are exactly the live ones |
| Strconv.Atoi | pkg/cache/file/file.go:146-155 | the value is always a 64-bit integer; a syntax error gives 0; every error is the syntax or the range error for the text |
| Strconv.NatString | pkg/cache/file/file.go:138 | a number's decimal text is non-empty and made of digits |
| Strconv.AtoiItoa | pkg/cache/file/file.go:137-151 | parsing the decimal text of a 64-bit integer gives the integer back without error |
| FileCache.ShardDir | pkg/cache/file/file.go:176-182 | the shard directory is the root itself at any level other than 1 and 2, and otherwise adds at most two `/xx` parts to it |
| FileCache.CacheFileName | pkg/cache/file/file.go:195 | the file name is the shard directory, at most one separator, the digest and the suffix, so its length lies between those bounds |
| FileCache.FileNameLayout | pkg/cache/file/file.go:172-196 | the file is `root/d[0:2]/d[2:4]/d+suffix` at level 2, `root/d[0:2]/d+suffix` at level 1, and `root/d+suffix` otherwise; with an empty root the leading `root/` is absent |
| FileCache.SameShard | pkg/cache/file/file.go:177-182 | digests that agree on the sharded characters share a directory |
| FileCache.FileNameInjective | pkg/cache/file/file.go:195 | different digests never share a cache file |
| FileCache.PathIdempotent | pkg/cache/file/file.go:183-195 | an existing shard directory is used as it is; after success the directory exists, so a second call changes nothing and returns the same name |
| FileCache.PathStable | pkg/cache/file/file.go:183-193 | creating one key's shard directories changes neither the file name nor the `Get` result of any key |
| FileCache.EnsureDirStable | pkg/cache/file/file.go:183-193 | creating one missing directory leaves unchanged the error (or its absence) of making sure any other directory exists |
| FileCache.PathDiskKeepsFile | pkg/cache/file/file.go:183-195 | `getCacheFileName` changes no file and no access right, and never creates a directory under the cache file's own name |
| FileCache.PathDisks | pkg/cache/file/file.go:64-71 | the tree after each key's `Get` in turn keeps every file and every access right and only adds directories |
| FileCache.PathDisksOnlyShards | pkg/cache/file/file.go:64-71 | each directory those `Get`s add lies on the way to some key's shard directory |
| FileCache.PathDisksKeepOutcome | pkg/cache/file/file.go:64-71 | making earlier keys' shard directories keeps the tree well formed and changes no key's `Get` outcome |
| FileCache.GetMultiStep | pkg/cache/file/file.go:64-71 | the i-th key's `Get` has the outcome it has on the start tree, extends the tree by that key's shard directory, and adds its entry exactly when it fails |
| FileCache.GetMultiNilIff | pkg/cache/file/file.go:73-77 | the aggregate error is nil exactly when every key's `Get` succeeds on the start tree |
| FileCache.ExpiryFor | pkg/cache/file/file.go:84-88 | the expiry is `now` plus either ten years or the timeout, and it is `now + timeout` whenever the timeout is not the `EmbedExpiry` sentinel |
| FileCache.Outcomes | pkg/cache/file/file.go:65-66 | the `Get` outcome of each key, in order, on one tree |
| FileCache.WithDefaults | pkg/cache/file/file.go:129-143 | given settings are kept and missing ones get `cache`, `.bin`, `2` and `0` |
| FileCache.GetExpiredIff | pkg/cache/file/file.go:39-59 | `Get` reports `ErrKeyExpired` exactly when the key's file holds an envelope whose expiry is strictly before now |
| FileCache.MissingFileIsReadError | pkg/cache/file/file.go:44-46 | a missing cache file is reported as the wrapped read error (`not a directory` when it lies below a regular file, `no such file or directory` otherwise), never as `ErrKeyNotExist` |
| FileCache.PutThenGet | pkg/cache/file/file.go:80-100 | after a successful `Put`, `Get` returns the value until the recorded expiry and `ErrKeyExpired` after it |
| FileCache.PutLeavesOtherFiles | pkg/cache/file/file.go:95-99 | `Put` changes no other file and no access rights |
| FileCache.DeleteIdempotent | pkg/cache/file/file.go:102-115 | on a tree where every directory above an existing path exists, a successful `Delete` removes the key's file (unless access to it is refused) and no other; a second `Delete` succeeds and changes nothing |
| FileCache.DeleteAbsent | pkg/cache/file/file.go:107-114 | deleting a key with no file is not an error |
| FileCache.EmbedExpirySentinel | pkg/cache/file/file.go:84-88 | the timeout is compared with `EmbedExpiry` as a count of nanoseconds: a timeout equal to it is stored for ten years, and a timeout of that many seconds is stored as given |
| FileCache.CreateMakesRoot | pkg/cache/file/file.go:159-170 | after a successful `Create` the root exists, and creating it again succeeds without change |
| FileCache.DefaultsParse | pkg/cache/file/file.go:137-151 | the default directory level and embedded expiry parse to 2 and 0 |
| FileCache.FileCache.constructor | pkg/cache/file/file.go:35-37 | every setting starts at its zero value |
| FileCache.FileCache.Exists | pkg/cache/file/file.go:198-207 | true exactly when the path exists; only a failure other than "does not exist" is an error, wrapped as `file cache path is invalid` |
| FileCache.FileCache.GetCacheFileName | pkg/cache/file/file.go:172-196 | the name or error is `PathResult` of the tree before the call; the tree afterwards is `PathDisk` |
| FileCache.FileCache.Get | pkg/cache/file/file.go:39-59 | the result is `GetOutcome` of the tree before the call: the path error, the wrapped read error, the wrapped decode error, `ErrKeyExpired` or the value |
| FileCache.FileCache.GetMulti | pkg/cache/file/file.go:61-78 | each slot holds the key's value or nil, and the error is the aggregate of the failed keys' entries, all judged on the tree before the call; the tree afterwards is `PathDisks`: each key's shard directory made in turn, and no file changed |
| FileCache.FileCache.Put | pkg/cache/file/file.go:80-100 | the error and the new tree are `PutResult` and `PutDisk`: the envelope with the chosen expiry replaces the key's file |
| FileCache.FileCache.Delete | pkg/cache/file/file.go:102-115 | the error and the new tree are `DeleteResult` and `DeleteDisk` |
| FileCache.FileCache.Create | pkg/cache/file/file.go:159-170 | the error and the new tree are `CreateResult` and `CreateDisk` |
| FileCache.FileCache.Start | pkg/cache/file/file.go:117-157 | the new settings, the error, the new tree and the panic value are those `StartResult` gives for the settings and the tree before the call |
| FileCache.StartResult | pkg/cache/file/file.go:117-157 | starting never changes a file or the access rights and only ever adds directories; it panics (assignment to a nil map) exactly when the configuration is `null` |
| FileCache.StartUndecodable | pkg/cache/file/file.go:118-122 | a configuration that does not decode is returned as the error, and nothing changes |
| FileCache.StartSettings | pkg/cache/file/file.go:144-156 | path and suffix come from the configuration or its defaults; the level is parsed first, and when it fails the expiry and the tree are untouched; when the expiry fails the tree is untouched; a start without error has parsed both and leaves the root existing |
| FileCache.StartDefaults | pkg/cache/file/file.go:129-143 | an empty configuration gives root `cache`, suffix `.bin`, level 2 and embedded expiry 0, and then creates that root |
| Os.FileSystem.MkdirAll | pkg/cache/file/file.go:188 | the error and the new tree are `MkdirAllError` and `Mkdirs`; the tree stays well formed |
| Os.FileSystem.WriteFile | pkg/cache/file/file.go:241-243 | the error and the new tree are `WriteError` and `Written`: the whole file is replaced |
| Os.FileSystem.Remove | pkg/cache/file/file.go:108 | the error and the new tree are `RemoveError` and `Removed` |
| HttpServer.RegisterPanic | pkg/httpserver/httpserver.go:17-23 | a nil constructor panics with the prefixed message; a taken name panics with `Register called twice`; otherwise there is no panic |
| HttpServer.Resolve | pkg/httpserver/httpserver.go:27-34 | the registered server for a known name, and otherwise the `cache: unknown impl name` error |
| HttpServer.RegisterThenResolve | pkg/httpserver/httpserver.go:17-34 | after a registration without a panic, the name resolves to that constructor; other names are unaffected; an existing entry is never replaced |
| HttpServer.RegisterTwicePanics | pkg/httpserver/httpserver.go:21-23 | a second registration under a name panics and keeps the first constructor |
| HttpServer.Registry.Register | pkg/httpserver/httpserver.go:17-25 | the panic and the new table are those of `RegisterPanic` and `Registered`; the table never holds a nil constructor |
| HttpServer.Registry.NewHttpServer | pkg/httpserver/httpserver.go:27-34 | the result is `Resolve`: the server is nil exactly when an error is returned, and never a nil constructor |

## Left out

- Locking: the `sync.RWMutex` of the memory backend is not modelled. Every method runs to
  completion before the next starts. So the window between `expiredKeys` and
  `clearItems`, where a concurrent `Put` of an expired key could be deleted, is not
  modelled.
- The `vacuum` goroutine and its timer are not modelled. One loop iteration is `Sweep`.
  The `items == nil` exit cannot happen, because the map is never nil.
- Clocks: `time.Now()` and `time.Since` are the parameter `now`, in nanoseconds. Time
  arithmetic is unbounded. The saturation of `time.Since` and `Time.Add` is not modelled.
- FileCache.FileCache.Put: the two `time.Now()` calls (for the expiry and for the last
  access) are the same `now`.
- FileCache.DeleteIdempotent: stated only for trees where every directory above an
  existing file or directory exists, as on a real file system. The model's tree type
  would also allow a file whose parent directory is missing.
- FileCache.FileCache.Start: a `null` configuration panics before any setting or the tree
  changes. The panic is returned as a value; what the caller does with it is not modelled.
- FileCache.FileCache.Put: requires a non-nil value, because `gob.Register(nil)` panics.
  The panic is not modelled.
- Gob encoding: the envelope is stored as a value, not as bytes. An encoding failure is
  not modelled. A decoding failure is any file holding bytes that are not an envelope.
  The decoder's own message is replaced by a fixed cause.
- MD5: the digest is a function given to the file cache. It is any function that returns
  32 lowercase hex digits.
- The operating system:
  - Error texts are approximations of the `*PathError` messages.
  - Permission bits are the set of refused paths.
  - A failing `MkdirAll` changes nothing in the model. Go's may leave behind the ancestors
    it created before the failure.
  - Directories are never removed.
  - Paths are taken as already clean (no `filepath.Clean` of `..` or doubled separators),
    and the cache root as given.
- Error identity: errors are compared by value, not by pointer. So two calls of
  `merror.Error` with the same text are equal here.
- `fmt.Sprintf`: only `%s` and `%%` are modelled, which are all the core uses.
- Strconv.Atoi: the text inside its error messages is not `strconv.Quote`-escaped.
- `GetClient` and the `context.Context` parameters are not modelled: they do not affect
  behaviour.
- `ListenAndServe` and `ListenAndServeTLS` of the HTTP server interface belong to the
  adapters, which are not part of this model. So are the redis and memcache backends, the
  databases, the ORM and the loggers.
- JSON decoding of configurations is not modelled. `Start` receives the decoded map or the
  decoder's error.
- The `init` registrations of the memory and file backends are not modelled. They are
  calls of `Registry.Register`.
