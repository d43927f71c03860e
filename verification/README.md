# sensor-logger-go-server in Dafny

A Dafny model of the data path of a small Go HTTP server. The server receives
batches of phone sensor readings ("Sensor Logger" app JSON). It turns each
reading into a human-readable list of named values. It keeps the newest parsed
messages in memory, summarises them for a dashboard, and can rebuild the raw
payload for storage. It also covers how the server reads its configuration from
a `.env` file and the environment, and how it derives its logger settings.

One Dafny module per Go file:

| module | Go file | what it holds |
|---|---|---|
| `Results` | — | `Option`, `Result`, `Outcome` |
| `GoStrings` | — | `strings.TrimSpace`, `strings.ToLower`, `strconv.Atoi`/`Itoa`, first/last index of a rune |
| `GoSort` | — | `sort.Strings` as a sort of a set into strictly increasing code-point order |
| `SensorTypes` | types.go | the records; the decoded JSON envelope with absent fields |
| `Utils` | utils.go | `getFloat64` (with `float64(int64)` rounding), `getAccuracyDescription` |
| `Decoders` | parser.go | the eleven value decoders, the dispatch on the lower-cased name, `parseToHumanReadable` |
| `Parser` | parser.go | `parseSensorMessage`: type set, per-type counts, sorted type list, time range |
| `Store` | store.go | `ThreadSafeDataStore` as a sequence, oldest first, with its operations |
| `Database` | database.go | `getAccuracyInt`, `extractOriginalPayload` (`parseFloat` is a parameter) |
| `Handlers` | handlers.go | the ingest step, `prepareDashboardData`, the `limit` of the database endpoint |
| `Configuration` | config.go | defaults, `.env` lines, `loadFromEnv`, `validateConfig`, `LoadConfig`, `GetServerAddr` |
| `Logging` | logger.go | `parseLogLevel`, `GetLogConfig` |

Modelling choices:

- **Floats.** They are `real`. `fmt.Sprintf("%.Nf", x)` is the symbolic value `Fixed(N, x)` and `"%v"` is `Shown(v)`, so no decimal digits are produced. Widening `float32` to `float64` is exact. Converting `int`/`int64` to `float64` rounds to a 53-bit significand, and `Utils.IntToFloat64` writes that rounding out.
- **JSON decoding.** It is abstract. An input is `Malformed(reason)` or `Decoded(envelope)`. In the envelope, an absent or `null` field is `None` and becomes Go's zero value.
- **Map order.** `parseGeneric` walks a Go map, so its output order is unspecified. The model is a method that picks keys with `:|`. The predicate `Decodes(reading, h)` states what every run produces.
- **`sort.Strings`.** It compares UTF-8 bytes, which orders strings the same way as comparing their code points one by one.
- **`strings.ToLower`.** It is modelled rune by rune on the runes that can lower-case into ASCII. Every comparison the server makes after lowering is against an ASCII word, so the model is exact for those comparisons.
- **Time.** The clock (`time.Now`) is a parameter `now`. A timestamp is `Instant(unixNanos)`. `ReadableTime` is the symbolic `TimeText(layout, instant)`. The zero `time.Time` of an empty `GetLatestOne` is modelled as the epoch.
- **`.env` precedence.** `loadEnvFile` calls `os.Setenv`, so a `.env` entry replaces an exported variable of the same name (`Configuration.LoadEnvLinesOverlay`). This is the reverse of the usual "the environment wins over the file" convention. It is modelled as written.
- **Two observations, not changed.**
  - `GetLogConfig` decides "production" from the log level alone, using a case-sensitive comparison. `parseLogLevel` ignores case. So `"WARN"` logs at Warn level in "dev" mode (`Logging.UpperCaseWarnStaysDev`).
  - `extractOriginalPayload` restores raw keys only for the accelerometer, gyroscope, magnetometer, compass and pedometer names. Gravity and the other layouts come back under their display names (`Database.ExtractGravityVerbatim`).

## Model

| member | source | states |
|---|---|---|
| `SensorTypes.ToMessage` | types.go:8-21 | unmarshalling keeps the payload's length and order; an absent payload is empty and absent fields take zero values |
| `Utils.GetFloat64` | utils.go:46-59 | float64 and float32 keep their value; int and int64 are converted with float64 rounding; any other value, a missing key included, is 0 |
| `Utils.RoundToFloat64` | utils.go:52-55 | a magnitude becomes a multiple of its last kept place (53 significant bits) within half that place of the input, the even multiple on a tie, and is left alone when it already fits |
| `Utils.RoundExact` | utils.go:52-55 | magnitudes up to 2^53 are not changed by the rounding |
| `Utils.IntToFloat64` | utils.go:52-55 | the conversion keeps the sign |
| `Utils.IntToFloat64Nearest` | utils.go:52-55 | the converted magnitude is an integer multiple of the last kept place nearest to the integer's magnitude, the even multiple on a tie |
| `Utils.IntToFloat64RoundsAbove53` | utils.go:52-55 | 2^53 + 1 converts to 2^53: the conversion really rounds, ties to even |
| `Utils.IntToFloat64Exact` | utils.go:52-55 | integers of magnitude up to 2^53 convert exactly |
| `Utils.GetFloat64WidensExactly` | utils.go:52-55 | an int or int64 bag value up to 2^53 reads back as the same number |
| `Utils.IntCasesAgree` | utils.go:52-55 | `int` and `int64` holding the same number give the same float |
| `Utils.AccuracyDescription` | utils.go:62-75 | accuracies 0..3 map to the four quality words; every other number is "未知" |
| `Utils.AccuracyDescriptionInjective` | utils.go:62-75 | distinct known accuracies get distinct words |
| `Utils.KnownIsNotUnknown` | utils.go:62-75 | a known accuracy never reads as "未知" |
| `GoStrings.TrimSpace` | config.go:93 | the result is the input with its Unicode white-space prefix and suffix removed, and it neither starts nor ends with white space |
| `GoStrings.TrimSpaceIdempotent` | config.go:114-115 | trimming twice is trimming once |
| `GoStrings.TrimSpaceOfPadded` | config.go:114-115 | white space around a non-empty text without white space at its ends is removed, and nothing else |
| `GoStrings.ToLower` | parser.go:82 | lower-casing keeps the length and maps each rune on its own |
| `GoStrings.LowerOfUpper` | logger.go:173 | lower-casing forgets any earlier upper-casing |
| `GoStrings.IndexOf` | config.go:101 | the index found holds the rune and no earlier position does; none exactly when the rune is absent |
| `GoStrings.Atoi` | config.go:156 | succeeds exactly on an optional sign followed by one or more ASCII digits whose signed value fits in 64 bits, and returns that value; a well-formed text out of range is a range error; so is any text whose run of leading digits after the sign already exceeds 2^64 - 1, whatever follows; all other text is a syntax error |
| `GoStrings.ScanUint` | config.go:156 | the digit loop of `strconv.Atoi`'s slow path: a range error once the leading digit run exceeds 2^64 - 1, else a syntax error at a non-digit, else the value of the digits |
| `GoStrings.AtoiShortText` | config.go:156 | on a text shorter than 19 bytes (`strconv.Atoi`'s fast path) every failure is a syntax error, and a syntax error happens exactly when the text is not an optionally signed digit string |
| `GoStrings.AtoiExamples` | config.go:156 | leading zeros and `+` are accepted; a space, an underscore, a bare sign and the empty text are syntax errors; 2^63 is out of range |
| `GoStrings.AtoiLongTextExamples` | config.go:156 | the decimal text of 2^64 followed by a letter is a range error; that of 2^63 followed by a letter is a syntax error |
| `GoStrings.AtoiOfItoa` | handlers.go:582 | every 64-bit integer written in decimal parses back to itself |
| `GoSort.SortSet` | parser.go:55-58 | the type list is strictly increasing and holds exactly the set's names |
| `GoSort.SortedUnique` | parser.go:58 | two strictly increasing lists with the same elements are equal, so the sorted list does not depend on map order |
| `Decoders.ParseAccelerometer` | parser.go:111-117 | three values x, y, z in order, each `getFloat64` of its key at 6 decimals in m/s², with the acceleration names and descriptions |
| `Decoders.ParseGyroscope` | parser.go:120-126 | the same x, y, z layout in rad/s with the angular-velocity names and descriptions |
| `Decoders.ParseMagnetometer` | parser.go:129-140 | one bearing value at 2 decimals exactly when `magneticBearing` is present, otherwise the x, y, z field in μT with its names and descriptions |
| `Decoders.ParseGravity` | parser.go:143-149 | the x, y, z layout in m/s² with the gravity names and descriptions |
| `Decoders.ParseOrientation` | parser.go:152-167 | the rows for qw, qx, qy, qz in that order, each appended only when its key is in the bag; at most four, all without a unit |
| `Decoders.ParseCompass` | parser.go:170-174 | exactly one bearing value from `magneticBearing` at 2 decimals, in degrees |
| `Decoders.ParsePedometer` | parser.go:177-181 | exactly one step count from `steps` at 0 decimals |
| `Decoders.ParseMagnetometerUncalibrated` | parser.go:184-190 | the x, y, z layout in μT with the uncalibrated names and descriptions |
| `Decoders.ParseLocation` | parser.go:193-211 | the rows for latitude, longitude, altitude, speed, bearing in that order, each appended only when its key is in the bag; at most five |
| `Decoders.ParseBarometer` | parser.go:214-223 | the pressure row before the altitude row, each appended only when its key is in the bag |
| `Decoders.ParseGeneric` | parser.go:226-237 | for any iteration order: one value per key, no key twice, each showing its raw value with the description key + "数值" |
| `Decoders.GenericCoversKeys` | parser.go:229-235 | the generic values' names are exactly the bag's keys |
| `Decoders.KindOf` | parser.go:82-105 | a specific decoder is chosen exactly when the lower-cased name equals its case label; otherwise the generic one |
| `Decoders.KindOfName` | parser.go:82-102 | each case label, written all in lower case or all in upper case, selects its own decoder |
| `Decoders.KindOfLower` | parser.go:82-102 | any name whose lower-cased form is a case label, in whatever mix of letter case, selects that label's decoder |
| `Decoders.AxisZeroFill` | parser.go:111-117 | a missing axis key shows as 0 at 6 decimals |
| `Decoders.AxisDecodersLocal` | parser.go:111-190 | the accelerometer, gyroscope, gravity and uncalibrated-magnetometer decoders, and the magnetometer decoder when no bearing is present, read only the keys x, y and z: two bags agreeing on those keys decode to the same values |
| `Decoders.FixedValueCount` | parser.go:82-102 | how many values each specific sensor type yields: 3, 1, 1 or 3, at most 4, 5 or 2 |
| `Decoders.ParseToHumanReadable` | parser.go:70-108 | the name, the time as timestamp, the accuracy word, and the values of the decoder picked by the lower-cased name |
| `Parser.TimeBounds` | parser.go:36-47 | the running minimum and maximum bound every reading's time and are attained by some reading |
| `Parser.Absorb` | parser.go:32-51 | one loop step keeps the type set, counts, time range and readings in step with the prefix read so far |
| `Parser.Summarise` | parser.go:28-52 | after the loop: the type set and count keys are the payload's names, counts are occurrences, min/max times, one decoded reading per raw one |
| `Parser.ParseSensorMessage` | parser.go:12-67 | malformed JSON is an error and nothing else is; a decoded message keeps its ids and reading count, sorted distinct types, exact counts, the time range (0,0 when empty) and one readable reading per raw reading |
| `Parser.TimeRangeOrdered` | parser.go:60-64 | start ≤ end, and every reading's time lies in the range |
| `Parser.SensorTypeCount` | parser.go:54-58 | the type list has one entry per distinct name and is no longer than the payload |
| `Parser.ParseDeterministic` | parser.go:29-64 | the summary fields are determined by the payload alone, whatever the map iteration order |
| `Parser.CountsSumToTotal` | parser.go:22-34 | the counts of the listed types add up to `TotalReadings` |
| `Parser.CountsPositive` | parser.go:33-34 | every counted type occurs at least once |
| `Store.Latest` | store.go:39-56 | the newest min(n, len) messages in arrival order; an empty store gives none |
| `Store.LatestOne` | store.go:59-68 | the newest message and true on a non-empty store; the zero value and false otherwise |
| `Store.Trimmed` | store.go:85-92 | at most `maxSize` messages, a suffix of the store, untouched when already small enough |
| `Store.LatestOneIsLatest` | store.go:39-68 | `GetLatestOne` returns the single element of `GetLatest(1)` |
| `Store.LatestAgreesWithTrim` | store.go:39-92 | reading the newest n and trimming to n keep the same messages |
| `Store.TrimIdempotent` | store.go:85-92 | trimming twice to one size is trimming once |
| `Store.TrimBeforeAppend` | handlers.go:243-246 | trimming the store before an add does not change the trimmed result |
| `Store.AddAllRetainsNewest` | handlers.go:243-246 | add-then-trim after every message keeps exactly the newest `maxSize` messages ever received |
| `Store.AddEvictsOldest` | handlers.go:243-246 | a full store drops exactly its oldest message; with room it keeps all; the new message is the newest |
| `Store.AppendThenTrim` | handlers.go:243-246 | one add-then-trim grows the store by one up to `maxSize`; the new message is the newest and the others are the newest of the old ones |
| `Store.ThreadSafeDataStore.constructor` | store.go:14-18 | a new store is empty |
| `Store.ThreadSafeDataStore.Add` | store.go:21-26 | the message is appended as the newest, the others unchanged |
| `Store.ThreadSafeDataStore.TrimToSize` | store.go:85-92 | the store keeps only its newest `maxSize` messages |
| `Store.ThreadSafeDataStore.Get` | store.go:29-36 | the stored messages, oldest first |
| `Store.ThreadSafeDataStore.GetLatest` | store.go:39-56 | the newest min(n, len) messages of the store |
| `Store.ThreadSafeDataStore.GetLatestOne` | store.go:59-68 | the newest message and true, or the zero value and false |
| `Store.ThreadSafeDataStore.Len` | store.go:71-75 | the number of stored messages |
| `Store.ThreadSafeDataStore.IsEmpty` | store.go:78-82 | true exactly when nothing is stored |
| `Store.ThreadSafeDataStore.GetAllForRead` | store.go:95-99 | the stored messages, oldest first |
| `Database.AccuracyInt` | database.go:314-327 | the four quality words map to 0..3 and reverse `getAccuracyDescription`; any other text is −1 |
| `Database.AccuracyRoundTrip` | database.go:314-327 | describing an accuracy and reading it back returns it for 0..3 and −1 otherwise |
| `Database.AccuracyTextRoundTrip` | database.go:314-327 | a described word, "未知" included, survives reading back and describing again |
| `Database.OriginalKey` | database.go:214-233 | the axis display names map to x, y or z by their first letter; the bearing names to `magneticBearing`; "步数" to `steps`; every other name is kept as the key |
| `Database.AxisNameLetter` | database.go:216-217 | each axis display name starts with the ASCII letter of its axis |
| `Database.OriginalKeyRestores` | database.go:215-229 | for the accelerometer, gyroscope, magnetometer, compass and pedometer rows, the display name maps back to the key it was read from |
| `Database.GravityKeyVerbatim` | database.go:230-233 | the gravity display names are kept verbatim as keys |
| `Database.RebuildValues` | database.go:211-234 | the rebuilt bag has one key per mapped name, every value is a float, and the final value sits under its key |
| `Database.RebuildValuesLastWins` | database.go:211-234 | every key holds the value of the last position that maps to it, whatever earlier positions wrote |
| `Database.RebuildValuesAt` | database.go:211-234 | when the mapped keys are distinct, each value is stored under its own key |
| `Database.ExtractReading` | database.go:236-241 | name, nanosecond time and accuracy number are recovered; the keys are the mapped names |
| `Database.ExtractOriginalPayload` | database.go:204-247 | one raw reading per readable reading, in order |
| `Database.ExtractRoundTrip` | database.go:236-241 | after parsing, extraction returns the original name, time, and the accuracy when it was 0..3 (−1 otherwise) |
| `Database.ExtractAxisKeys` | database.go:215-220 | an accelerometer or gyroscope reading comes back with keys exactly x, y, z holding the parsed formatted values |
| `Database.ExtractSingleKey` | database.go:224-229 | a compass reading comes back under `magneticBearing`, a pedometer reading under `steps` |
| `Database.ExtractGravityVerbatim` | database.go:230-233 | a gravity reading comes back under its three display names, not under x |
| `Database.GenericRebuild` | database.go:230-232 | generic values rebuild a bag with the original keys, each holding the parsed shown value |
| `Database.ExtractGenericKeys` | database.go:230-232 | a generic reading with no reserved key names comes back with exactly its original keys |
| `Handlers.HandleSensorData` | handlers.go:199-246 | non-POST is 405; an unreadable or unparsable body is 400 and leaves the store unchanged; 200 exactly for accepted requests, after which the store holds the newest `maxSize` messages with the parsed one last |
| `Handlers.PrepareDashboardData` | handlers.go:509-552 | message count, summed readings, distinct sensor types and devices over the whole store, and the first ≤ 20 readings of the newest message; all zero on an empty store |
| `Handlers.DevicesAtMostMessages` | handlers.go:528-540 | there are never more distinct devices than messages |
| `Handlers.TypesOfContains` | handlers.go:534-536 | every message's sensor types are counted on the dashboard |
| `Handlers.DashboardBounds` | handlers.go:509-552 | on a non-empty store: 1 ≤ devices ≤ messages, each message's sorted type list fits in the type count, ≤ 20 readings shown |
| `Handlers.DashboardAfterIngest` | handlers.go:543-549 | after an ingest the dashboard has data and shows the start of the new message's readings |
| `Handlers.DbLimit` | handlers.go:580-585 | the limit is at least 1: a positive parsed parameter, otherwise 50 |
| `Handlers.DbLimitOfDecimal` | handlers.go:581-584 | any positive decimal limit is used as given |
| `Handlers.DbLimitNonPositive` | handlers.go:582-584 | a zero or negative limit falls back to 50 |
| `Configuration.ValidateConfig` | config.go:185-228 | passes exactly for a valid configuration; otherwise reports the first failing check in the order port, timeout, store size, log level, environment |
| `Configuration.PortOfDecimal` | config.go:187-189 | a decimal port is accepted exactly in 1..65535 |
| `Configuration.DefaultConfigValid` | config.go:35-47 | the default configuration passes validation |
| `Configuration.Unquote` | config.go:117-123 | exactly one matching pair of outer quotes is stripped, only when there is one |
| `Configuration.SplitEnvLine` | config.go:101-123 | no `=` means a malformed line; otherwise the line splits at its first `=`: the key is the trimmed text before it and the value the unquoted trimmed text after it |
| `Configuration.ParseEnvLine` | config.go:93-123 | blank and `#` lines are skipped, lines without `=` are malformed, and any other trimmed line splits at its first `=` into the trimmed key and the unquoted trimmed value |
| `Configuration.EnvPaddedEntry` | config.go:93-123 | white space before the key, around the `=` and after the value is dropped, and the value is unquoted |
| `Configuration.EnvEntryRoundTrip` | config.go:93-123 | a trimmed `key=value` line yields exactly that key and value |
| `Configuration.EnvQuotedRoundTrip` | config.go:117-123 | a quoted value comes back without its quotes |
| `Configuration.EnvLinePadding` | config.go:93 | surrounding white space never changes how a line is read |
| `Configuration.Setenv` | config.go:126-134 | an empty key, `=` or NUL in the key, or NUL in the value is refused; otherwise the variable is set or replaced |
| `Configuration.LoadEnvLines` | config.go:91-135 | applying a file never removes a variable |
| `Configuration.LoadEnvLinesOverlay` | config.go:126-134 | the file's result is the prior environment overlaid with the file's own assignments, so file entries win |
| `Configuration.LoadEnvLinesIdempotent` | config.go:91-135 | loading the same file twice is loading it once |
| `Configuration.LastLineWins` | config.go:91-135 | a well-formed line sets its key unless a later line sets the same key again |
| `Configuration.OverrideString` | config.go:142-144 | a non-empty variable replaces the setting; an empty or unset one keeps it |
| `Configuration.OverrideInt` | config.go:155-159 | a variable that parses as an integer replaces the setting; anything else keeps it |
| `Configuration.OverrideBool` | config.go:166-168 | a set variable makes the flag true exactly when it reads "true" in any case |
| `Configuration.LoadFromEnv` | config.go:141-182 | each of the eleven settings is overridden from its own variable only |
| `Configuration.LoadFromEnvUnset` | config.go:141-182 | with none of the variables set, the configuration is unchanged |
| `Configuration.LoadFromEnvIdempotent` | config.go:141-182 | applying the environment twice is applying it once |
| `Configuration.OverrideExamples` | config.go:161-168 | a non-numeric size is ignored; "TRUE"/"True" are true, "1"/"yes" are false |
| `Configuration.LoadConfig` | config.go:53-78 | succeeds exactly when the defaults, overridden by the environment after the `.env` file, are valid, and returns that configuration |
| `Configuration.LoadConfigDefaults` | config.go:53-78 | with no file and no variables the server runs on the defaults |
| `Configuration.GetServerAddr` | config.go:248-253 | `host:port`, or `:port` for every interface when the host is empty |
| `Configuration.ServerAddrSplits` | config.go:248-253 | host and port are recovered by splitting at the last colon |
| `Logging.ParseLogLevel` | logger.go:172-185 | case-insensitive: debug, warn/warning and error pick their level; anything else is Info |
| `Logging.ParseLevelName` | logger.go:172-185 | every level's name, lower or upper case, reads back as that level |
| `Logging.ParseLogLevelCaseInsensitive` | logger.go:173 | letter case never changes the parsed level |
| `Logging.GetLogConfig` | logger.go:188-205 | "production" exactly when the configured level is literally "warn" or "error"; source positions only in "dev"; the level parsed; file logging as configured |
| `Logging.ProductionIffSevere` | logger.go:190-199 | for a validated configuration, production mode is chosen exactly when the level is Warn or above |
| `Logging.UpperCaseWarnStaysDev` | logger.go:190-199 | "WARN" parses to Warn yet the mode stays "dev" |

## Left out

- HTTP plumbing, response bodies and headers, request logging, templates and the dashboard HTML: these are I/O. Only the status codes and the store update of the ingest handler are modelled.
- The read/write lock of `ThreadSafeDataStore`: it only serialises calls, so each operation is modelled sequentially. `Add` and `TrimToSize` are class methods whose contracts use `old`, so their effect is also stated on the pure functions `Store.Trimmed` and `Store.AddAllRetainsNewest`.
- MongoDB (`InitMongoDB`, `SaveSensorData`, queries, statistics, device info), `saveToFile` and `displayParsedData`: these are external services, file I/O and console output.
- `parseFloat`: `strconv.ParseFloat` of decimal text is not modelled. It is the parameter `parse` of the extraction functions.
- Decimal formatting (`%.2f`, `%v`) and time formatting: these stay symbolic (`Fixed`, `Shown`, `TimeText`). No digits or date text are produced.
- JSON decoding: it is abstract, given as `Malformed` or `Decoded`. Type errors and the reason text are not derived from bytes.
- `Handlers.PrepareDashboardData`: does not model Go `int` overflow of the summed reading count, because it would need more than 2^63 readings.
- `createDirectories`, `PrintConfig`, `InitLogger`, the slog handlers and the log file path of `GetLogConfig`: these are file-system and output effects.
- Scanner errors of `loadEnvFile`, such as an over-long line or a read failure: a file that cannot be opened is `None`, and the lines of a readable file are given as a list.
- `getLocalIPs`: network interfaces are outside the model.
- `Store.Trimmed` and `Store.ThreadSafeDataStore.TrimToSize` require `maxSize >= 0`. A negative size makes the Go slice expression at store.go:90 panic, and a panic is not modelled. The server passes `MaxDataStore`, which `validateConfig` has checked is at least 1 (config.go:197-198).
- `Store.ThreadSafeDataStore.GetAllForRead` returns the live slice without copying, while `Get` copies (store.go:95-99). A sequence model has no aliasing, so the two return equal values. The server only reads the returned slice.
