# template-loader in Dafny

A model of the core of the WordPress template loader `widoz/template-loader`.
The core has three parts.

- `Sanitizer` cleans template slugs and template paths.
- `DataStorage` is the key/value cache (ArrayAccess plus Countable) that maps a slug to the file already found for it.
- `Loader` finds the file for a slug and includes it. It looks first in the shared storage, then in the theme (`locate_template`). If the theme's result is falsy and the `tmploader_use_plugin` filter answers `'yes'`, it then searches under the plugin directory.

Files:

- `wrappers.dfy` holds `Option` and `Result`. They stand in for PHP's `null` and for thrown exceptions.
- `sanitizer.dfy` (module `Sanitizer`) holds the three sanitizers and their building blocks:
  - the character filter that `preg_replace` with a negated class performs;
  - `trim($s, '/')`;
  - one `str_replace('..', '', $s)` pass;
  - the `while` loop of `sanitizePath`, as a method proved against a function.
- `sanitizer_examples.dfy` (module `SanitizerExamples`) evaluates the sanitizers on the example strings of the test suite. The verifier can only evaluate short literals, so each example is cut into short pieces. Each piece is proved on its own and the pieces are joined by composition lemmas (`FilterThree`, `DotsThree`, `PathPipeline`).
- `host.dfy` (module `Host`): everything outside the core, as a value.
  - The set of existing files.
  - `locate_template`.
  - `Filesystem::getPluginDirPath`.
  - The four `apply_filters` hooks the loader calls. Each is a function of the arguments the loader passes.
- `data_storage.dfy` (module `Storage`): the class `DataStorage` over a `map` field, plus the functions and lemmas that describe `isset`, get, set, unset and count on a map.
- `loader.dfy` (module `TemplateLoader`):
  - the class `Loader`;
  - the recursive `pluginFilePath` as a method with a `foreach`-style loop;
  - `Resolve`, the function that specifies it, and a reference definition (`Candidates` with `FirstExisting`) proved to agree with it: equal when some candidate exists, and not an existing file otherwise;
  - `getFilePath` and `render`, each with the function of the state it reads (`LocatedPath`, `RenderResult`, `CacheAfter`).

What the source does, followed even where one might expect otherwise:

- `sanitizeSlugRegExp` only deletes characters. It does not lower-case, and it keeps `-` as `-`.
- One `str_replace('..', '', …)` pass already leaves no `..`, so the loop of `sanitizePath` runs at most once (`SinglePassSuffices`).
- `sanitizePathRegExp` trims `/` before it removes `..`. So a slash can survive at either end: `"../a"` becomes `"/a"`, and the function is not idempotent (`LeadingSlashCanReappear`).
- `getFilePath` tests the theme's result with PHP truthiness, under which `"0"` is falsy as well as `""`.
- `pluginFilePath` on an array where nothing exists returns the value of the last item, or `""` for an empty array.
- `render` checks existence on the path before the `tmploader_template_file_path` filter. It then includes and stores the filtered path, which it does not check again.
- `Loader` has no default/fallback tier and no empty-data short-circuit.

## Model

| member | source | states |
|---|---|---|
| Sanitizer.SanitizeSlugRegExp | src/Sanitizer.php:84-87 | the slug keeps only characters of `[a-z0-9-_]` (SLUG_SANITIZE_PATTERN) and is no longer than the input |
| Sanitizer.Filter | src/Sanitizer.php:86 | `preg_replace` with a negated class, as at lines 86 and 103, only deletes: the result is never longer than the input (what it keeps is in FilterCounts) |
| Sanitizer.SlugIsExactDeletion | src/Sanitizer.php:84-87 | the sanitized slug is a subsequence of the input that keeps every occurrence of every character of `[a-z0-9-_]`, so exactly the other characters are deleted |
| Sanitizer.SlugFixedPoint | src/Sanitizer.php:84-87 | a slug is left unchanged exactly when it is already over `[a-z0-9-_]` |
| Sanitizer.SlugIdempotent | src/Sanitizer.php:84-87 | sanitizing a sanitized slug changes nothing |
| Sanitizer.FilterCounts | src/Sanitizer.php:86 | preg_replace with a negated class keeps each class character as often as it occurs and removes every other character |
| Sanitizer.TrimSlashes | src/Sanitizer.php:103 | after `trim($s, '/')` neither end is a `/` |
| Sanitizer.TrimSlashesExact | src/Sanitizer.php:103 | the trim removes exactly the leading and the trailing runs of `/`, nothing inside |
| Sanitizer.RemoveDotDot | src/Sanitizer.php:67 | one `str_replace('..', '', $s)` pass, left to right without overlap, never lengthens the string |
| Sanitizer.RemoveDotDotComplete | src/Sanitizer.php:67 | a single `str_replace('..', '', $s)` pass leaves no `..` |
| Sanitizer.RemoveDotDotShrinks | src/Sanitizer.php:66-68 | a pass over a string containing `..` makes it strictly shorter, which is why the loop terminates |
| Sanitizer.StripDotDot | src/Sanitizer.php:66-68 | the value the `while (strpos(..) !== false)` loop leaves contains no `..` |
| Sanitizer.SinglePassSuffices | src/Sanitizer.php:66-68 | the loop's result equals one pass |
| Sanitizer.SanitizedPath | src/Sanitizer.php:64-73 | sanitizePath's result has no `..` and is never `/` |
| Sanitizer.SanitizePath | src/Sanitizer.php:64-73 | the while loop computes SanitizedPath of its input and leaves no `..` |
| Sanitizer.SanitizedPathIsOnePass | src/Sanitizer.php:70-72 | the result is `""` exactly when the loop leaves `""` or `/`, and is the loop's string otherwise |
| Sanitizer.SanitizedPathFixedPoint | src/Sanitizer.php:64-73 | a path is left unchanged exactly when it has no `..` and is not `/` |
| Sanitizer.SanitizedPathIdempotent | src/Sanitizer.php:64-73 | sanitizePath applied twice equals applied once |
| Sanitizer.SanitizedPathIsSubsequence | src/Sanitizer.php:64-73 | sanitizePath only deletes characters |
| Sanitizer.SanitizePathRegExp | src/Sanitizer.php:98-105 | the result uses only `[a-zA-Z0-9/_.-]` (PATH_SANITIZE_PATTERN) and contains no `..` |
| Sanitizer.SanitizePathRegExpIsSubsequence | src/Sanitizer.php:98-105 | the result is a subsequence of the input |
| SanitizerExamples.LeadingSlashCanReappear | src/Sanitizer.php:98-105 | `"../a"` sanitizes to `"/a"` and then to `"a"`: the trim before the `..` removal lets a `/` survive, so the function is not idempotent |
| SanitizerExamples.SpecialSlugExample | tests/LoaderTest.php:49-59 | the special slug of the test sanitizes to `thisis1234567890aspecial_slug` |
| SanitizerExamples.LoaderSlugExample | src/Sanitizer.php:84-87 | `loader_slug` is a fixed point |
| SanitizerExamples.SpecialPathExample | tests/LoaderTest.php:64-74 | the special path of the test sanitizes to `this//path/doesnt//contain/non/spaces/and/0123456789/special/chars` |
| SanitizerExamples.ExistsFilePathExample | tests/src/LoaderTest.php:61-68 | `/tests/assets/existsFile.php` sanitizes to `tests/assets/existsFile.php` |
| SanitizerExamples.TraversalExample | tests/src/SanitizerTest.php:36-44 | sanitizePath turns `/../this/is/a/../path/../` into `//this/is/a//path//`, which has no `..` |
| Storage.Get | src/DataStorage.php:80-90 | offsetGet succeeds exactly when the key is set (present and not null), with the stored value; otherwise it fails with OutOfBounds for that key |
| Storage.DataStorage.constructor | src/DataStorage.php:52-55 | a new storage is empty |
| Storage.DataStorage.OffsetGet | src/DataStorage.php:80-90 | reading through the object is Get on its map |
| Storage.DataStorage.OffsetSet | src/DataStorage.php:102-105 | the map afterwards is the old map with the key bound to the value |
| Storage.DataStorage.OffsetUnset | src/DataStorage.php:116-119 | the map afterwards is the old map without the key |
| Storage.GetAfterSet | src/DataStorage.php:102-105 | after a set the key reads back the value when it is not null, is set exactly then, and every other key reads as before |
| Storage.CountAfterSet | src/DataStorage.php:128-131 | a set raises count by one exactly when the key was new; an overwrite keeps the count |
| Storage.CountAfterUnset | src/DataStorage.php:116-119 | an unset lowers count by one exactly when the key was present, keeps every other key and leaves the key unset |
| Storage.NullIsCountedButNotSet | src/DataStorage.php:66-69 | a key holding null counts toward count but is not set and cannot be read |
| Storage.StorageRoundTrip | tests/src/DataStorageTest.php:34-77 | set `key` to `value` on a new storage, then count is 1, the key exists and reads `value`; after unset, count is 0 |
| Storage.MessageIdentifiesKey | src/DataStorage.php:83-86 | the OutOfBoundsException message `Key %s does not exists` identifies the key: two keys with the same message are equal |
| TemplateLoader.SanitizeAll | src/Loader.php:158-163 | array_map keeps the length and replaces each candidate, in order, by its sanitizePathRegExp |
| TemplateLoader.AsList | src/Loader.php:158 | the `(array)` cast: an array stays itself, null becomes `[]` and a string the one-element array of that string |
| TemplateLoader.SanitizeAllIsSanitized | src/Loader.php:156-164 | every stored candidate uses only path characters and has no `..` |
| TemplateLoader.Loader.constructor | src/Loader.php:119-126 | the slug is sanitizeSlugRegExp of the argument, data is null, the given storage is kept, the candidates are the sanitized template path, nothing is included yet |
| TemplateLoader.Loader.SetData | src/Loader.php:140-143 | data is set, the rest is unchanged, and the loader invariant (sanitized slug and candidates) is kept |
| TemplateLoader.Loader.SetTemplatePath | src/Loader.php:156-164 | null gives `[]`, a string `[sanitizePathRegExp(s)]`, an array its items sanitized in order; the loader invariant is kept |
| TemplateLoader.ResolveBaseCases | src/Loader.php:88-107 | pluginFilePath of an empty array is `""` and of a string is its plugin-dir path |
| TemplateLoader.Resolve | src/Loader.php:88-107 | the value pluginFilePath returns is `""` or the plugin-dir path of one of the strings in its argument |
| TemplateLoader.ResolveList | src/Loader.php:92-101 | the foreach over the items yields `""`, the value left by the items before, or one of the items' plugin-dir paths |
| TemplateLoader.ResolveMatchesReference | src/Loader.php:92-101 | pluginFilePath returns the first candidate, depth first, that exists; when none exists its result does not exist either |
| TemplateLoader.PluginFilePath | src/Loader.php:88-107 | the recursive foreach with break computes Resolve |
| TemplateLoader.FirstExisting | src/Loader.php:98-100 | the reference search returns an existing candidate from the list, or none when no candidate exists |
| TemplateLoader.Loader.GetFilePath | src/Loader.php:192-214 | getFilePath returns LocatedPath of the candidates, and the theme's result whenever that is truthy |
| TemplateLoader.LocatedPath | src/Loader.php:196-213 | getFilePath's value is the theme's result, `""`, or the plugin-dir path of one of the candidates |
| TemplateLoader.LocatedPathTiers | src/Loader.php:196-213 | the theme's result wins when truthy or when the filter does not answer `'yes'`; otherwise the plugin search decides |
| TemplateLoader.LocatedPathFromPlugin | src/Loader.php:206-211 | when the theme finds nothing and the filter says `'yes'`, the result is the plugin path of the first candidate that exists there |
| TemplateLoader.ChosenPath | src/Loader.php:230-232 | when the slug is set in the storage, the path is the one stored there; otherwise it is getFilePath's |
| TemplateLoader.FilteredDataWithoutHooks | src/Loader.php:250-259 | the data passes the general filter and then the per-slug filter; with neither hooked the template gets the loader's own data |
| TemplateLoader.RenderResult | src/Loader.php:230-280 | assuming the included template returns normally and assigns none of render's variables: render fails exactly when the chosen path does not exist, naming that path; otherwise it returns the chosen path after the path filter, with the data after both data filters |
| TemplateLoader.MessageIdentifiesPath | src/Loader.php:236-239 | the exception message `Template Loader: No way to locate the template %s.` identifies the attempted path: two paths with the same message are equal |
| TemplateLoader.CacheAfter | src/Loader.php:278 | on success the slug reads back the returned path; on failure the storage is unchanged; other keys always read as before |
| TemplateLoader.CacheHitIgnoresLookup | src/Loader.php:230-232 | on a cache hit the stored path is used; the candidates and the theme and plugin lookups do not affect the result |
| TemplateLoader.CacheMissUsesLookup | src/Loader.php:230-232 | on a miss the path checked is getFilePath's |
| TemplateLoader.SecondRenderHitsCache | src/Loader.php:277-278 | after a successful render the slug is a hit for the returned path, whatever candidates are set later |
| TemplateLoader.CheckPrecedesFilter | src/Loader.php:235-269 | existence is checked on the unfiltered path, so render succeeds even when the filter returns a path that does not exist |
| TemplateLoader.Loader.Render | src/Loader.php:226-281 | the result is RenderResult of the old storage; on failure nothing is included and the storage is unchanged; on success exactly one inclusion of the returned path is appended and the storage is CacheAfter; the loader invariant is kept (under the same assumption on the included template as RenderResult) |
| TemplateLoader.SharedStorageScenario | src/Loader.php:230-278 | a second loader on the same storage and slug renders the first loader's stored path, whatever its own candidates are |

`DataStorage.OffsetExists` and `DataStorage.Count` read one field. They are stated through the lemmas above on the storage's map rather than by contracts of their own. `Loader.GetTemplatePath` returns the `templatesPath` field; what that holds is given by the `templatesPath` ensures of the constructor and of `SetTemplatePath`. The two exception messages, `OutOfBounds.Message` and `LoaderError.Message`, format their argument into fixed text. What they promise is in `MessageIdentifiesKey` and `MessageIdentifiesPath`. `Loader.Valid` is the class invariant: the slug is over `[a-z0-9-_]` and every candidate is over the path characters with no `..`. The constructor establishes it and every method keeps it.

## Left out

- src/Filesystem.php is not part of this model. `Loader` calls `Filesystem::getPluginDirPath`, which that file does not define (it has `pluginDirPath`). The model replaces the call by the function `Host.pluginDirPath`.
- The WordPress functions (`locate_template`, `apply_filters`) and PHP's `file_exists` are modelled only as given functions and a given file set. Their internals, hooks registered at run time, and hooks that throw are outside the model.
- `include`: the template is assumed to return normally and not to assign render's variables or the loader's fields. In PHP, `include` runs the template inside render's own scope. A throwing template leaves the storage unwritten, and one that assigns `$filePath` changes what is stored and returned. The included template's output, and the PHP warning for including a missing file, are not modelled either. Each loader keeps a ghost trace of its own inclusions rather than one global trace.
- src/LoaderInterface.php, src/TemplateInterface.php and src/ModelInterface.php declare signatures only. `LoaderInterface::getData` has no implementation in `Loader`.
- The fluent API (`withData`, `usingTemplate`, `butFallbackToTemplate`), the default-path tier and `ModelInterface` payloads appear only in tests/src/php/unit/LoaderTest.php. They are not in src/Loader.php.
- Multibyte text: strings are sequences of characters. Both character classes are ASCII, so removing characters removes the same text as removing the UTF-8 bytes.
- PHP array-key coercion: numeric-string keys such as `"12"` become integer keys in PHP. Lookups coerce the same way, so a string-keyed map behaves alike for the loader.
- Storage values are narrowed to `null` or a string. The loader only stores strings.
- setTemplatePath arguments are null, a string or an array of strings. Other scalars (PHP casts them to strings and sanitizes them) are not modelled. Neither is a nested array: `array_map` passes the inner array to `sanitizePathRegExp`, where `preg_replace` returns an array and `trim` of it throws a TypeError under PHP 8, or warns and yields null under PHP 7 (so null is stored). `pluginFilePath` itself does accept nested arrays and other values (`TPath`).
- The filters are typed: `tmploader_use_plugin` and `tmploader_template_file_path` return strings, and the data filters return an optional payload. PHP filters may return any type.
- The test data payload (`stdClass` with properties) is an opaque map. The loader only forwards it.
