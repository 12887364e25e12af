# FileUploadProgress in Dafny

A Dafny model of the PHP class `FileUploadProgress`. The class reports how far an
in-flight file upload has got. It does so through one of three upload-progress
backends:

- APC's RFC 1867 cache (`PROGRESS_APC`, 1),
- PHP's session upload progress (`PROGRESS_PHP`, 2),
- the uploadprogress extension (`PROGRESS_PHP_EXT`, 3).

The model has three files:

- `wrappers.dfy`: `Option`, `Result` and `Outcome`. Exceptions become `Failure`/`Fail` values.
- `php_values.dfy`: the PHP values a backend can store (null, booleans, integers, strings,
  string-keyed arrays). It also holds the `(bool)` and `(int)` casts, PHP's decimal form of
  an integer, and the loose `==` that `in_array` uses against an integer.
- `upload_progress.dfy`: the backends, the parameters that stand for the runtime's ambient
  state, and the class itself. The class has a `const uploadFileName` and a mutable
  `progressCalcMethod`. Its setter validates the value. The field name, identifier, hidden
  markup and progress query are functions that read the object.

What the class reads from the runtime is passed in as parameters:

- `ini_get` values become an `Ini` record.
- `$_SERVER['HTTP_USER_AGENT']` and `$_SERVER['REMOTE_ADDR']` become a `Request`.
- `sha1`, `md5` and `ip2long` become the function-valued fields of `Digests`. `ip2long`
  returns `None` where PHP returns false.
- The `function_exists`, ini-flag and PHP-version probes become one flag per backend in `Features`.
- The APC cache, `$_SESSION` and the extension's table become maps in `Stores`. A key that
  is absent gives `None`.

Every derived value is a function of the object and these parameters. So the identifier is
the same on every call for fixed inputs, and the form render and the later poll agree on
the lookup key.

The ensures of `SetProgressCalcMethod` give the set-then-get property for the three
constants. They also say that any other value is refused with `UnexpectedValue` and leaves
the field unchanged. That setter uses the strict membership test. The source's loose test is
modelled beside it as `SetProgressCalcMethodAsWritten`; see "## Findings".
`uploadFileName` is a `const`, so only the constructor sets it.

## Model

| member | source | states |
|---|---|---|
| `UploadProgress.FileUploadProgress.constructor` | FileUploadProgress.php:19-33 | the file name is stored as given and the method starts as `PROGRESS_APC`, which satisfies the object invariant |
| `UploadProgress.FileUploadProgress.ProgressCalcMethod` | FileUploadProgress.php:40-42 | returns the stored method, which on a valid object is one of the three constants |
| `UploadProgress.SetThenGet` | FileUploadProgress.php:40-57 | on a fresh tracker, setting any of the three constants passes and the getter then returns that constant |
| `UploadProgress.FileUploadProgress.SetProgressCalcMethod` | FileUploadProgress.php:51-57 | with the membership test made strict: one of the three integer constants is stored and passes; any other value fails with `UnexpectedValue(value)` and leaves the method unchanged; the invariant is kept |
| `UploadProgress.FileUploadProgress.SetProgressCalcMethodAsWritten` | FileUploadProgress.php:51-57 | the setter as written: a value that passes the loose `in_array` test is stored as given and passes; any other value fails with `UnexpectedValue(value)` and leaves the method unchanged |
| `UploadProgress.AcceptedAsWritten` | FileUploadProgress.php:52 | the loose test accepts `true` but not `false`, never null or an array, and among integers exactly 1, 2 and 3 |
| `UploadProgress.AsWrittenSetterMisroutes` | FileUploadProgress.php:51-133 | a fresh tracker given the string "1" by the setter as written accepts it, and then names its hidden field `UPLOAD_IDENTIFIER`, the extension's, instead of APC's |
| `UploadProgress.AsWrittenSetterBreaksValid` | FileUploadProgress.php:51-57 | a fresh tracker given the string "1" by the setter as written accepts it and stores it unchanged, which leaves the object outside `Valid()` (the method is one of the three integer constants) |
| `UploadProgress.BackendOf` | FileUploadProgress.php:126-132 | the getters select APC exactly when the method is identical to 1 and sessions exactly when it is identical to 2; every other value falls through to the extension |
| `UploadProgress.FileUploadProgress.ProgressFieldName` | FileUploadProgress.php:125-133 | `apc.rfc1867_name` for APC, `session.upload_progress.name` for sessions, the literal `UPLOAD_IDENTIFIER` otherwise |
| `UploadProgress.FileUploadProgress.ProgressFieldUniqueValue` | FileUploadProgress.php:140-145 | for APC, `sha1` of file name + user agent + remote address; otherwise `md5`(file name) + `md5`(user agent) + the printed `ip2long` of the remote address |
| `UploadProgress.FileUploadProgress.HiddenUploadFieldHTML` | FileUploadProgress.php:116-118 | exactly `<input type='hidden' name='` + field name + `' value='` + unique value + `'>`, with no escaping |
| `UploadProgress.LookupKey` | FileUploadProgress.php:72-100 | the key is the APC prefix + identifier, the session prefix + identifier, or the bare identifier for the extension |
| `UploadProgress.KeyDeterminesId` | FileUploadProgress.php:72-100 | for a fixed backend and ini settings, equal lookup keys mean equal identifiers, so distinct identifiers are looked up under distinct keys (distinct uploads can still share an identifier, see `ApcIdentifierRunsInputsTogether`) |
| `UploadProgress.Fetch` | FileUploadProgress.php:72-100 | reads only the selected backend's store (APC cache, session array or extension table): absent exactly when the key is not in that store, and otherwise the value stored under the key |
| `PhpValues.IsNonEmptyArrayIsTruthyArray` | FileUploadProgress.php:74-102 | `is_array && !empty` holds exactly of a stored array that `(bool)` calls true, and never of an absent entry |
| `UploadProgress.Normalise` | FileUploadProgress.php:74-106 | succeeds exactly when the data is a non-empty array and otherwise fails with `WrongFormat`; maps `total`/`current`/`done`, `content_length`/`bytes_processed`/`done` and `bytes_total`/`bytes_uploaded`; for the extension, `done` holds iff the two byte counts are equal under `(int)` |
| `UploadProgress.FileUploadProgress.Progress` | FileUploadProgress.php:66-108 | an unavailable backend fails with `BackendUnavailable` whatever the stores hold; otherwise the result is the normalisation of the selected store's entry under the lookup key built from this object's identifier |
| `UploadProgress.ProgressSucceedsIff` | FileUploadProgress.php:66-108 | `getProgress` succeeds iff the backend is available and its entry under the lookup key is a non-empty array |
| `UploadProgress.MissingEntryIsWrongFormat` | FileUploadProgress.php:74-76 | an absent entry gives the same `WrongFormat` error as malformed data |
| `UploadProgress.ApcProgressPassesThrough` | FileUploadProgress.php:78 | APC data `{total:100, current:40, done:false}` comes back unchanged |
| `UploadProgress.ExtensionDoneWhenAllBytesUploaded` | FileUploadProgress.php:106 | extension data with 50 of 50 bytes uploaded gives `done == true` |
| `UploadProgress.Md5IdentifierDetermines` | FileUploadProgress.php:144 | when `md5` gives 32-character digests, equal session/extension identifiers have equal file-name digests, equal user-agent digests and equal `ip2long` results |
| `UploadProgress.IpText` | FileUploadProgress.php:144 | `ip2long`'s false prints as the empty string, and only false does; an integer result prints in decimal |
| `UploadProgress.IpTextInjective` | FileUploadProgress.php:144 | the printed `ip2long` result, including false printed as the empty string, determines that result |
| `UploadProgress.ApcIdentifierRunsInputsTogether` | FileUploadProgress.php:142 | the APC identifier does not separate its inputs: file name "ab" with user agent "c" and file name "a" with user agent "bc" give the same key |
| `UploadProgress.HiddenFieldMarkupDetermines` | FileUploadProgress.php:117 | if neither field name contains a single quote, equal markup means equal field name and equal value |
| `UploadProgress.QuotedFieldNameIsAmbiguous` | FileUploadProgress.php:117 | because nothing is escaped, a field name containing a quote can produce the same markup as a different name and value |
| `PhpValues.Index` | FileUploadProgress.php:78 | reading a missing array key gives null, and reading a present key gives its value |
| `PhpValues.ToBool` | FileUploadProgress.php:78 | the `(bool)` cast applied to `done`: null, false, 0, "", "0" and the empty array are false |
| `PhpValues.IntToString` | FileUploadProgress.php:144 | an integer prints as a non-empty string of digits, with a leading minus sign when it is negative |
| `PhpValues.IntToStringRoundTrip` | FileUploadProgress.php:144 | a printed integer parses back to itself, both as a whole decimal string and under the `(int)` cast |
| `PhpValues.IntToStringInjective` | FileUploadProgress.php:144 | distinct integers print differently |
| `PhpValues.ToInt` | FileUploadProgress.php:106 | the `(int)` cast: null is 0, booleans are 0 or 1, integers are themselves, arrays are 0 when empty and 1 otherwise, and a string of digits is its decimal value |
| `PhpValues.LeadingInt` | FileUploadProgress.php:106 | a string of digits converts to its decimal value; a string that starts with anything but whitespace, a sign or a digit converts to 0 |
| `PhpValues.ToIntOfIntString` | FileUploadProgress.php:106 | the `(int)` cast in the extension's `done` test treats an integer and its decimal string alike |
| `PhpValues.LooseEqualsIntOfIntegers` | FileUploadProgress.php:52 | under `in_array`'s loose `==`, an integer equals a constant iff they are the same number, and a constant's own decimal string also equals it |
| `UploadProgress.LooseCheckMisroutesApc` | FileUploadProgress.php:51-79 | the string "1" and `true` pass the loose check and equal `PROGRESS_APC` under `==`, yet the getters select the extension backend for them |
| `UploadProgress.StrictCheckSelectsIntendedBackend` | FileUploadProgress.php:52 | the strict check accepts exactly the integer values that the loose check accepts, and each accepted value selects the backend its constant names |

## Findings

| source | as written | input that shows it | evidently intended | confidence | as-written member | corrected member |
|---|---|---|---|---|---|---|
| FileUploadProgress.php:52 | `in_array` runs without its strict flag, so the setter accepts any value loosely equal to 1, 2 or 3 and stores it unchanged. The getters then compare the stored value with `===`, and a non-integer value matches neither 1 nor 2, so it falls through to the uploadprogress extension. | `setProgressCalcMethod("1")` or `setProgressCalcMethod(true)` is accepted, and `getProgress` then queries the extension rather than APC | accept only the integer constants, so that an accepted method always selects the backend it names | high (not executed) | `UploadProgress.LooseCheckMisroutesApc` | `UploadProgress.StrictCheckSelectsIntendedBackend` |

`Valid()` says that the selected method is one of the three integer constants. The constructor
sets it up and `SetProgressCalcMethod`, which uses the strict check (`IsProgressMethod`), keeps it.
`SetProgressCalcMethodAsWritten` can break it, as the source's setter does, for example with
`Str("1")` (`AsWrittenSetterBreaksValid`).

## Left out

- `session_start` when no session is active (FileUploadProgress.php:84-86) is session plumbing. The model reads `$_SESSION` as a given map.
- Feature detection is collapsed into one flag per backend. This covers `function_exists('apc_fetch')`, `function_exists('uploadprogress_get_info')`, the `apc.rfc1867` and `session.upload_progress.enabled` settings, and the `floatval(phpversion()) < 5.4` float comparison.
- `sha1`, `md5` and `ip2long` are not computed. They are parameters, and the model covers only how their results are concatenated and printed.
- `ini_get` returns false for an unknown setting, and false concatenates as "". The model takes each setting as a string, so an unset setting is the empty string.
- Exception messages are not modelled. Only the kind of failure is kept: `UnexpectedValue`, `BackendUnavailable` or `WrongFormat`. The last two are both `RuntimeException` in the source.
- PHP arrays are modelled with string keys only. Float values are not modelled.
- The `(string)` cast in the constructor is not modelled. The constructor takes a string.
- UploadProgress.FileUploadProgress.SetProgressCalcMethod: the class uses the corrected strict check. The source also accepts and stores values loosely equal to a constant, such as "1", "02", "+3" and `true`; that behaviour is modelled by `SetProgressCalcMethodAsWritten`, not by this method. So only `SetProgressCalcMethod` keeps `Valid()` (the method is one of the three integer constants). `SetProgressCalcMethodAsWritten` can break it, as `AsWrittenSetterBreaksValid` shows, and then the `ProgressCalcMethod` contract promises only that the stored value is returned.
- PhpValues.LeadingInt: for `(int)` of a string, the model reads leading whitespace, an optional sign and leading digits. It does not model float or exponent forms such as "1e3", and it does not saturate at the 64-bit limits.
- UploadProgress.FileUploadProgress.SetProgressCalcMethodAsWritten: PHP's loose `==` also accepts strings that are not whole signed decimal integers. Examples are " 1", "1.0" and "1e0", and before PHP 8 leading-numeric strings such as "1abc". The source stores these, but this method refuses them with `UnexpectedValue`, because its test is `AcceptedAsWritten`.
- UploadProgress.AcceptedAsWritten: for strings it accepts only whole signed decimal integers equal to 1, 2 or 3. PHP's loose `==` also accepts " 1", "1.0" and "1e0", and before PHP 8 leading-numeric strings such as "1abc"; the model refuses all of these.
- PhpValues.LooseEqualsInt: a string equals an integer only when the whole string is a signed decimal integer. The model does not treat other numeric strings (" 1", "1.0", "1e0") as equal, although PHP does. Before PHP 8, PHP also treats leading-numeric strings such as "1abc" as equal to 1; the model does not. That makes `UploadProgress.AcceptedAsWritten` narrower than the source's check. The counterexamples in the finding hold regardless.
- The model proves no property that relies on `sha1` or `md5` being collision-free. `Md5IdentifierDetermines` stops at equal digests.
