# Manifest generator model

A Dafny model of the manifest generator of the claude-tools repository
(`scripts/generate-manifest.ts`). The generator walks the four category
directories (`hooks`, `skills`, `agents`, `slash-commands`) in a fixed order.
For each visible tool subdirectory it does four things:

- parses `metadata.json`;
- checks the descriptor with `validateMetadata`;
- checks that the declared main and additional files exist;
- builds a manifest entry, adding `lastUpdated`, `downloads` and `rating`.

It aborts on the first tool that fails. Otherwise it sorts all entries with
featured tools first and then by name, counts the tools per category, and
assembles the manifest document.

The model has one module per stage:

| module | file | what it models |
|---|---|---|
| `Json` | `json.dfy` | parsed JSON values, JavaScript truthiness, property reads, `String(v)` coercion and when that coercion throws |
| `Version` | `version.dfy` | the semantic-version regular expression `^\d+\.\d+\.\d+$` |
| `Categories` | `categories.dfy` | `TOOL_CATEGORIES` and the scan order |
| `Validator` | `validator.dfy` | `validateMetadata` with its five ordered checks |
| `Entries` | `entries.dfy` | manifest entry construction (object spread plus three fields) |
| `Loader` | `loader.dfy` | `readMetadata` |
| `Scanner` | `scanner.dfy` | `scanCategory` as a loop (`ScanCategory`), checked against a reference fold (`Scan`) |
| `Ordering` | `ordering.dfy` | the `allTools.sort` comparator and a stable sort |
| `Manifest` | `manifest.dfy` | `generateManifest`: the scan loop, counts, sort and document |
| `Pipeline` | `pipeline.dfy` | a whole run over a snapshot of the repository tree |
| `Scenarios` | `scenarios.dfy` | concrete runs: a valid tree, and a tree with a broken tool |

The filesystem is modelled as data:

- a category directory is either `Missing` or a listing of entries;
- a tool directory carries its parsed descriptor, the set of relative paths that exist in it, and the timestamp from the history lookup.

The clock (`generatedAt`) is a parameter. A thrown error, or `process.exit(1)`
after a failed load, becomes an `Err` value that names the category, the tool
and the reason.

## Model

| member | source | states |
|---|---|---|
| Categories.NameRoundTrip | scripts/generate-manifest.ts:57 | each category's directory name is recognised as that same category |
| Categories.AllListsEveryCategoryOnce | scripts/generate-manifest.ts:57 | the scan order lists all four categories, each exactly once |
| Categories.FromName | scripts/generate-manifest.ts:90 | a string is accepted as a category only when it is exactly that category's name |
| Validator.FirstMissing | scripts/generate-manifest.ts:84-88 | the reported key is the first required name that is absent; None means every name is present |
| Validator.ValidateMetadata | scripts/generate-manifest.ts:81-109 | accepts exactly the well-formed descriptors. A refusal names the first failing check in source order: required keys, category, tags array, `files.main` truthy, version. Every earlier check holds. `NotAnObject` (the `in` TypeError) occurs exactly for non-object, non-array values. A missing-field error names the first absent required key, and an array is refused as missing `id`. A category or version refusal carries the offending value, and is the TypeError of string conversion exactly when that value cannot be converted. `FilesIsNull` occurs exactly when the first three checks pass and `files` is null |
| Validator.FirstMissingReported | scripts/generate-manifest.ts:82-88 | if required keys up to i-1 are present and key i is absent, the error is `MissingField` of key i, whatever follows |
| Validator.AcceptedCategory | scripts/generate-manifest.ts:90-92 | an accepted descriptor's `category` is the string name of one of the four categories |
| Validator.VersionValueShape | scripts/generate-manifest.ts:102-106 | because `test` coerces with `String()`, only a string or a one-element array can pass the version check |
| Validator.ArrayVersionAccepted | scripts/generate-manifest.ts:103-104 | the array `["1.0.0"]` passes the version check |
| Version.JoinSplit | scripts/generate-manifest.ts:103 | splitting on dots and re-joining gives back the original string |
| Version.SplitJoin | scripts/generate-manifest.ts:103 | joining dot-free parts and splitting again gives back the parts |
| Version.VersionSound | scripts/generate-manifest.ts:103 | an accepted version is three digit runs separated by two dots |
| Version.VersionComplete | scripts/generate-manifest.ts:103 | any three digit runs joined by dots are accepted |
| Version.VersionAlphabet | scripts/generate-manifest.ts:103 | an accepted version has at least five characters, all digits or dots |
| Version.VersionExamples | scripts/generate-manifest.ts:102-106 | `1.0.0` and `10.20.300` pass; `1.0`, `1..0`, `1.0.0-beta` and `v1.0.0` fail |
| Entries.Downloads | scripts/generate-manifest.ts:153 | `downloads` is `repository.stars` when that value is truthy, and 0 otherwise (including when the repository or stars is missing) |
| Entries.Rating | scripts/generate-manifest.ts:154 | the rating is 5 exactly when `featured` is truthy, and 4 otherwise |
| Entries.BuildEntry | scripts/generate-manifest.ts:149-155 | the entry's keys are the descriptor's keys plus the three added ones. Every other descriptor value is kept unchanged. The added values are the timestamp, the downloads and the rating |
| Entries.DescriptorRecovered | scripts/generate-manifest.ts:149-151 | the spread only adds: removing the three added keys gives back a descriptor that did not use them |
| Entries.RatingMatchesFeatured | scripts/generate-manifest.ts:154 | an entry's rating is 5 exactly when the sort treats it as featured |
| Loader.CheckAdditional | scripts/generate-manifest.ts:133-143 | passes exactly when every path is a string that exists. Otherwise it reports the first path that fails, as not found or as not a string |
| Loader.ReadMetadata | scripts/generate-manifest.ts:114-157 | loads exactly when the descriptor parsed, validated and all its declared files exist; the loaded entry is the built entry. An unparsable descriptor is `Unreadable`. A descriptor that fails validation reports the validator's error. A validated descriptor fails only through its file paths: first `files.main` (not found, or not a string), and only once main resolves, the additional files, reporting `CheckAdditional`'s first failure or the non-iterable value |
| Loader.LoadedEntryShape | scripts/generate-manifest.ts:123-155 | a loaded entry keeps the validated category, tags array and accepted version |
| Scanner.CandidatesExactly | scripts/generate-manifest.ts:182-184 | exactly the subdirectories whose name does not start with a dot are handed to the loader |
| Scanner.LoadAllSucceeds | scripts/generate-manifest.ts:182-196 | the load loop succeeds exactly when every candidate loads, and then returns the entries in listing order |
| Scanner.LoadAllFirstError | scripts/generate-manifest.ts:186-193 | a failed loop reports the first failing candidate in listing order, with that candidate's own failure |
| Scanner.ScanCategory | scripts/generate-manifest.ts:169-197 | the imperative loop gives an empty list for a missing directory. Otherwise it agrees with the reference fold, on success and on the first failure |
| Scanner.MissingCategoryIsEmpty | scripts/generate-manifest.ts:172-177 | a missing category directory contributes nothing and is not an error |
| Scanner.SkippedEntriesIgnored | scripts/generate-manifest.ts:183-184 | the scan does not depend on how hidden directories or plain files would load |
| Ordering.StrCompare | scripts/generate-manifest.ts:225 | name comparison is three-way and gives 0 exactly for equal names |
| Ordering.StrCompareAntisymmetric | scripts/generate-manifest.ts:225 | swapping the names negates the comparison |
| Ordering.StrCompareTransitive | scripts/generate-manifest.ts:225 | name comparison is transitive |
| Ordering.CompareLaws | scripts/generate-manifest.ts:222-226 | the comparator is total and transitive, and two entries tie exactly when their featured flag and name are equal |
| Ordering.Insert | scripts/generate-manifest.ts:222-226 | inserting into a sorted list keeps it sorted and adds exactly that entry |
| Ordering.Sort | scripts/generate-manifest.ts:222-226 | the result is a permutation of the input and is ordered by the comparator |
| Ordering.FeaturedMovesAhead | scripts/generate-manifest.ts:223-224 | a featured entry listed after a non-featured one ends up ahead of it |
| Ordering.SortedMeaning | scripts/generate-manifest.ts:221-226 | ordered means all featured entries come before all non-featured ones, with names non-decreasing within each group |
| Ordering.SortStable | scripts/generate-manifest.ts:222-226 | entries that tie keep their input order |
| Ordering.SortIdempotent | scripts/generate-manifest.ts:222-226 | sorting a sorted list changes nothing |
| Manifest.Assemble | scripts/generate-manifest.ts:228-235 | the document has format version `1.0.0`, and its total equals the number of tools and the sum of the counts. The tools are sorted and are a stable permutation of the concatenated category lists. Each count is the length of that category's list |
| Manifest.GenerateManifest | scripts/generate-manifest.ts:205-235 | succeeds exactly when every category scan succeeds, and the document is then consistent and carries `generatedAt`. Each category count is the length of its scan. The tools are a permutation of all scanned entries. A failure is the error of the first failing category in scan order |
| Manifest.GeneratedIsAssembled | scripts/generate-manifest.ts:205-235 | a successful run's document is the one assembled from the four scan results in declared order |
| Manifest.ManifestEntryScanned | scripts/generate-manifest.ts:214-233 | every tool in a generated manifest was produced by the successful scan of some category |
| Manifest.ManifestStable | scripts/generate-manifest.ts:214-226 | tied entries keep their scan order in the manifest |
| Manifest.MissingCategoryCountsZero | scripts/generate-manifest.ts:172-177 | a missing category is counted as 0 |
| Pipeline.ScannedEntryLoaded | scripts/generate-manifest.ts:182-188 | every entry from a successful scan was loaded from a visible tool directory listed in that category |
| Pipeline.ManifestToolsValid | scripts/generate-manifest.ts:214-233 | every tool in a generated manifest comes from a visible, listed tool directory that validated and whose declared files exist |
| Scenarios.HookLoads | scripts/generate-manifest.ts:114-157 | a complete hook descriptor whose main file exists loads into its built entry |
| Scenarios.HookWithoutAuthorRejected | scripts/generate-manifest.ts:84-87 | a descriptor without `author` is refused as `MissingField("author")` |
| Scenarios.ValidTreeManifest | scripts/generate-manifest.ts:205-235 | a tree with `bar` and featured `foo`, plus a hidden directory and a plain file, produces `[foo, bar]` with counts 2/0/0/0 and total 2 |
| Scenarios.VersionObjectThrows | scripts/generate-manifest.ts:103-104 | a version `{"toString": 1}` is refused with the string-conversion TypeError, not as an invalid format |
| Scenarios.SkillWithoutAuthorRejected | scripts/generate-manifest.ts:84-87 | a skill descriptor without `author` is refused as `MissingField("author")` |
| Scenarios.BrokenToolStopsRun | scripts/generate-manifest.ts:186-193 | a skill without `author` fails the whole run, naming the category, the tool and the missing field |

## Left out

- File access: reading files, listing directories and `fs.access` are replaced by snapshot data. `JSON.parse` failure and an unreadable file are one case, `Unreadable`.
- `getLastCommitDate` (a git subprocess, lines 63-76): its result is an input of each tool directory.
- The clock: `new Date().toISOString()` for `generatedAt` is a parameter.
- Writing `manifest.json` and the console output (lines 237-253): the model stops at the in-memory document.
- Error messages: errors are structured values, not formatted strings. The wrapping in `readMetadata` (lines 158-163) becomes the category and tool fields of `ToolFailed`.
- A category path that exists but cannot be listed (e.g. a plain file): in the source this is an uncaught rejection handled at lines 257-260. The model has only `Missing` and `Listing`.
- Path normalisation by `path.join` (e.g. `./main.sh` or `../x`): a declared path resolves when the string is in the directory's set of present paths.
- Numbers are integers. Fractional values and the float `5.0`/`4.0` ratings become `JNum(int)`. A `JNum` stands for the value `JSON.parse` produced; the rounding of integers beyond 2^53 to the nearest double is not modelled.
- Json.NumberToString: `String()` writes integers of magnitude 10^21 or more in exponent form (`1e+21`). The model writes every digit. This changes only the sort key of a `name` whose `String()` form contains such an integer (the number itself, or an array holding one at any depth), and only its order against other names. A version whose `String()` form contains such an integer fails the version check either way.
- Ordering.StrCompare: `localeCompare` is modelled as lexicographic comparison of code points. It does not model locale collation.
- Entries.Name: the sort key is `String(name)`. A non-string `name` makes `a.name.localeCompare` throw in the source, depending on which pairs the engine compares; so does a `b.name` that `String()` cannot convert (an object with its own `toString` key). That failure is not modelled: the model sorts such entries normally.
- `toolPath` and the `category` string parameter are identified by the `Category` value and the directory name.

Where the declared `ToolMetadata` types (scripts/generate-manifest.ts:14-36) and the runtime checks differ, the model follows the code:

- `rating` and the sort's featured test use truthiness, not a boolean field.
- `downloads` is `stars || 0`, so a star count of 0, or any falsy value, gives 0.
- The version check coerces its argument with `String()`, so the non-string `["1.0.0"]` is accepted (`Validator.ArrayVersionAccepted`). A value whose conversion throws (an object with its own `toString` key, alone or inside an array) is refused with that TypeError. The same conversion in the invalid-category message throws for such a category value.
- Required keys are checked with `in`, so an array descriptor is refused as missing `id`, and a primitive as a TypeError.
- A `files: null` descriptor passes the key checks and then throws on `files.main`.
