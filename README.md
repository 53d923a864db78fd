# applogger in Dafny

A model of the Go package `applogger`, a structured logger that writes one
JSON object per line (NDJSON) to a log file. The model covers the whole
emission pipeline of `applogger.go`:

- the severity levels and their names (`LogLevel.String`);
- caller attribution, where the runtime's fully qualified function name is
  split at its last dot (`getCallerInfo`);
- extraction of the `user_id`, `request_id` and `session_id` attributes
  from a `context.Context` (`extractContextValues`);
- the `LogEntry` record and the JSON members `json.Marshal` writes for it,
  including the `omitempty` rules and the cases where marshalling fails;
- the `Logger`: `NewLogger`, `Log`, `LogHTTP`, the shared `logInternal`
  (one line per call, a diagnostic line on marshal failure, exit after a
  Fatal entry) and `Close`.

Modules follow the components: `Severity` (severity.dfy), `Caller`
(caller.dfy), `ContextValues` (context.dfy), `Entry` (entry.dfy) and
`AppLogger` (logger.dfy), with `Wrappers` (wrappers.dfy) holding `Option`
and `Result`.

How the outside world enters the model:

- The runtime lookup (`runtime.Caller` and `runtime.FuncForPC`) is a
  `CallerLookup` value: the `ok` flag and the resolved name, if any.
- The two clock readings are opaque strings: the PID and the formatted
  timestamp.
- The outcome of `os.OpenFile` is a parameter of `NewLogger`.
- The log file is the `sink` field, a sequence of `Line`s. A `Line` is
  either the JSON members of an entry, in emission order, or the
  marshal-failure diagnostic.
- `os.Exit(1)` sets the `exited` field.

Parsing a line back (`Entry.ObjectOf`, `Entry.Unmarshal`) is the
downstream consumer's view. It is the inverse against which the field
contract is proved: every line that is written gives back the entry it came
from.

Notes on the code as written:

- `extractContextValues` looks keys up with a type declared inside the
  function (`applogger.go:224`). Go compares context keys by type and
  value, so no value stored by code outside that function can match. The
  model keeps key types explicit (`ContextValues.KeyType`).
  `ForeignKeysNeverMatch` proves that such a context contributes no
  attributes. The model describes the lookup as written.
- `Close` does not clear `lg.file`. A second `Close` reaches the
  already-closed `*os.File`, which returns a `*PathError` wrapping
  `os.ErrClosed`.
- After `Close`, `log.Logger` still calls `Write` on the closed file. That
  write fails and `log.Logger` discards the error. So a log call after
  `Close` writes nothing, yet a successful Fatal call still exits.
- `os.Exit(1)` runs inside `logInternal` while the mutex is still held,
  because deferred calls do not run on exit. So the exit does not come after
  the lock is released; it comes after the write. The lock is not modelled
  (see below).
- When marshalling fails, the diagnostic goes through `lg.logger`
  (`applogger.go:175`), so it lands in the same log file as the entries.
  That file then holds a line that is not a JSON object, although the file
  is meant to stay NDJSON. The model writes `Diagnostic` to the same `sink`.
- `example/main.go` calls `WithFields` and stores fields under an
  `"applogger_fields"` context key. `applogger.go` defines neither, so the
  model has neither.

## Model

| member | source | states |
|---|---|---|
| `Severity.LevelString` | applogger.go:55-79 | Declared levels 0..4 map to DEBUG, INFO, WARN, ERROR, FATAL in declaration order. The result is "UNKNOWN" exactly when the level is not declared, so the function is total. |
| `Severity.LevelStringInjective` | applogger.go:64-79 | Two declared levels with the same name are the same level. |
| `Caller.LastIndexOf` | applogger.go:201-204 | The result is the index of the last occurrence of the character, or -1 when there is none; no later position holds it. |
| `Caller.CallerInfo` | applogger.go:189-207 | A failed lookup (`!ok` or a nil `*Func`) gives ("unknown","unknown"). A resolved name gives (pkg, fn) with pkg + "." + fn == name and no dot in fn. |
| `Caller.SplitIsAtLastDot` | applogger.go:200-206 | Any split of the name at a dot that leaves no dot in the function part is the one getCallerInfo returns, so it splits at the last dot. |
| `Caller.GetCallerInfo` | applogger.go:189-207 | The backward scan and split return exactly `CallerInfo` of the lookup. A resolved name must contain a dot, because the slice `fullName[:-1]` would panic. |
| `ContextValues.ExtractContextValues` | applogger.go:216-234 | A nil context gives the empty map. Otherwise the keys are a subset of {user_id, request_id, session_id}. A key is present exactly when the context holds a non-nil value under it, and it maps to that value. |
| `ContextValues.ContextAttributes` | applogger.go:216-234 | The closed form of what extractContextValues returns. A nil context gives the empty map. Otherwise only user_id, request_id and session_id can be keys. A key is present exactly when the context holds a non-nil value under it, and it maps to that value. |
| `ContextValues.ForeignKeysNeverMatch` | applogger.go:224-228 | A context whose keys all have a type other than the function-local key type yields no attributes. |
| `Entry.Marshal` | applogger.go:82-92 | Marshalling fails exactly when the entry is not encodable. A non-finite duration is reported first, as an unsupported value. With a finite duration the remaining failure is an unsupported attribute type. A marshalled entry has between six and nine members. |
| `Entry.TagsDistinct` | applogger.go:83-91 | The nine struct tags are pairwise distinct JSON keys. |
| `Entry.FieldOrder` | applogger.go:82-92 | A marshalled entry's members come in field-declaration order, so none repeats. pid, level, package, func, message and timestamp always come first. |
| `Entry.OmitEmpty` | applogger.go:89-91 | code is emitted iff it is non-zero, duration iff it is non-zero, and attributes iff the map is non-empty. |
| `Entry.EncodedPlainMembers` | applogger.go:83-88 | The parsed line holds the entry's pid, level, package, func, message and timestamp as strings. |
| `Entry.EncodedOptionalMembers` | applogger.go:89-91 | The parsed line holds code, duration and attributes exactly when they are non-zero or non-empty, with the entry's values. |
| `Entry.RoundTrip` | applogger.go:82-92 | Every entry that marshals is parsed back from its line unchanged: the omitted members read back as their zeros. |
| `AppLogger.BuildEntry` | applogger.go:160-170 | The entry holds the PID and timestamp given, and the level's name, which is "UNKNOWN" exactly for an undeclared level. It holds the caller split (pkg + "." + fn is the resolved name, and both are "unknown" for a failed lookup). It also holds the message, code and duration unchanged, and the context attributes, whose keys are among the three names. |
| `AppLogger.Emission` | applogger.go:173-180 | The line is the entry's members exactly when the entry is encodable. Otherwise it is the diagnostic carrying the marshal error. A written record parses back to the entry. |
| `AppLogger.Logger.Zero` | applogger.go:95-99 | A zero-value Logger has no file, an empty sink, and has not exited. |
| `AppLogger.Logger.Opened` | applogger.go:107-112 | A Logger over an opened file starts with the file's existing lines and has not exited. |
| `AppLogger.Logger.NewLogger` | applogger.go:102-113 | If the open fails, its error is returned and there is no Logger. Otherwise a fresh Logger over the open file is returned, with no error. |
| `AppLogger.Logger.Close` | applogger.go:116-123 | With no file, Close returns nil and changes nothing. An open file is closed and nil returned. A second Close returns an error wrapping os.ErrClosed. The sink never changes. |
| `AppLogger.Logger.WriteLine` | applogger.go:175-180 | An open file gains exactly that line at the end. A closed file gains nothing. |
| `AppLogger.Logger.LogInternal` | applogger.go:146-186 | The entry has the level's name, the caller split, the message, code, duration and context attributes. An open sink gains exactly one line, the entry or the diagnostic, and nothing else changes. The process exits iff the level is Fatal and marshalling succeeded. |
| `AppLogger.Logger.Log` | applogger.go:126-128 | The same as LogInternal with code 0 and duration 0. |
| `AppLogger.Logger.LogHTTP` | applogger.go:131-133 | The same as LogInternal with the given code and duration. |
| `AppLogger.LogOmitsCodeAndDuration` | applogger.go:126-128 | A line from Log never carries code or duration. It is a diagnostic exactly when some context attribute cannot be encoded. |
| `AppLogger.LogHTTPCarriesCode` | applogger.go:131-133 | A written LogHTTP line carries code iff it is non-zero, with the given value, and carries duration iff it is non-zero. |
| `AppLogger.WrittenLineRecoversCall` | applogger.go:160-173 | Parsing a written line gives back the message unchanged, the level's name, the caller split, the code, the duration and the context attributes. |

## Left out

- The mutex (`applogger.go:97`, `117`, `147`): it exists for concurrent callers, and the model is single-threaded. Each call is one atomic step on the Logger.
- `runtime.Caller` and `runtime.FuncForPC` (`applogger.go:190-195`): runtime introspection. Their outcome is the `CallerLookup` input. The skip depth 3 is what makes that frame the caller of `Log` or `LogHTTP`.
- `time.Now()` and the `"20060102150405"` PID layout (`applogger.go:154`, `166`): clock and formatting library. PID and timestamp are opaque inputs. `time.Time`'s own marshal failure (a year outside 0..9999) is not modelled, because the clock does not produce such years.
- `encoding/json` rendering: the model says which members appear, in what order, with what values. It leaves out byte-level escaping and the key order inside the attributes object. It also leaves out the text of the diagnostic: the message "Could not marshal log entry: %v", and which unsupported attribute type the error names.
- `duration` as float64: a finite duration is a `real`, so rounding is not modelled. NaN and the two infinities are kept, because they make `json.Marshal` fail.
- Attribute values: the model has nil, strings, integers, booleans and values of an unsupported type. Nested maps, slices and floats are not modelled.
- `os.OpenFile` flags and permissions, and `file.Close` errors other than closing twice (`applogger.go:103-105`, `120`): file system behaviour.
- The width of Go's `int` for levels and codes: they are unbounded integers, because the code does no arithmetic on them.
- The log methods require that the process has not exited: after `os.Exit` no code runs. They also require a file, because a zero-value Logger panics on its nil inner logger.
- Strings are Unicode text (`seq<char>`), while a Go string is a sequence of bytes. `json.Marshal` replaces invalid UTF-8 with U+FFFD, and the model does not. So `Entry.RoundTrip`, `AppLogger.Emission` and `AppLogger.WrittenLineRecoversCall` match the Go code only when every string in the entry is valid UTF-8.
- `example/main.go` and `applogger_test.go`: the first is a demonstration program. The second targets an API that `applogger.go` does not define.
