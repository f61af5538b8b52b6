# diffzero browser tools — a verified model of the page logic

diffzero is a set of client-side browser tools. Most of it is presentation code
around browser built-ins and libraries. This project models the parts that have
logic of their own, one Dafny module per page:

- **JSON formatter** (`JsonFormatter`, `json_formatter.dfy`). A JSON value
  datatype and `sortObjectKeys` as the recursive function `SortKeys`. Its
  properties are proved by induction: scalars unchanged, arrays mapped element
  by element, an object keeps exactly its keys with their sorted values in
  ascending key order, and sorting is idempotent. The handlers serialise
  through `SortKeys`, the corrected sort (see Findings). The page state is the
  `Formatter` class. Its Format, Minify, Validate and Clear handlers take
  `JSON.parse` and `JSON.stringify` as function arguments.
- **npm package size analyser** (`PackageSize`, `package_size.dfy`). The npm
  registry is a map from package name to the response it would give.
  `fetchPackageSize` becomes a total function that gives 0 whenever no size is
  recorded. The dependency loop of `analyzePackage` is the method
  `SumDependencies`. It is proved against `Recorded`, the `depSizes` object,
  and `TotalPositive`, the `totalDepSize`. The page state is the
  `PackageAnalyzer` class. Also covered: the blank-name check through `trim()`,
  the largest-first display order and the large-package threshold.
- **Base64 tool** (`Base64Tool`, `base64.dfy`). A class with the page's fields
  (mode, input, output, error, copied, fileName) and its handlers. `btoa` and
  `atob` are arguments that return a result or fail. The data-URL prefix strip
  is a pure function.
- **UUID generator** (`UuidGenerator`, `uuid.dfy`). `crypto.randomUUID` is
  replaced by the sequence of identifiers it would return. The generation loop
  is the method `NewUuids`. The page state is the `Generator` class. The
  Copy All text is proved to split back into the list.

Shared modules:

- `Common`: `Option`, what a `catch` receives, and distinctness of keys.
- `StableSort`: a stable insertion sort over a total preorder. It stands for
  `Array.prototype.sort`, which is stable.
- `Text`: JavaScript `split`/`join` on one character, and ASCII `toUpperCase`.

## Model

| member | source | states |
|---|---|---|
| `Common.ErrorText` | src/app/json-formatter/page.tsx:25-27 | the caught error's message when it is an `Error`, the fallback text otherwise; non-empty when both are |
| `StableSort.SortBy` | src/app/json-formatter/page.tsx:58-59 | sorting returns a permutation of its input (same multiset, same length) |
| `StableSort.SortBySorted` | src/app/package-size/page.tsx:207-208 | for a total preorder, every element of the sorted sequence is ordered before every later one |
| `StableSort.SortBySortedFixpoint` | src/app/json-formatter/page.tsx:58-59 | an already ordered sequence is returned unchanged |
| `StableSort.SortByStable` | src/app/package-size/page.tsx:207-208 | stability: for every `x`, the elements equivalent to `x` appear in the sorted sequence in their input order |
| `Text.Split` | src/app/base64/page.tsx:48 | `split` gives at least one piece and no piece contains the separator |
| `Text.JoinSplit` | src/app/base64/page.tsx:48 | joining the pieces of a split with the separator gives back the original string |
| `Text.SplitJoin` | src/app/uuid/page.tsx:36 | splitting the join of separator-free parts gives back exactly those parts |
| `Text.ToUpper` | src/app/uuid/page.tsx:17 | upper-casing keeps the length and maps each character by the ASCII upper-case rule |
| `JsonFormatter.Lookup` | src/app/json-formatter/page.tsx:61 | `obj[key]` has a value exactly when the key is one of the object's keys |
| `JsonFormatter.KeyLessEqTotal` | src/app/json-formatter/page.tsx:59 | the default string sort order compares any two keys |
| `JsonFormatter.KeyLessEqTransitive` | src/app/json-formatter/page.tsx:59 | the default string sort order is transitive |
| `JsonFormatter.KeyLessEqAntisymmetric` | src/app/json-formatter/page.tsx:59 | two keys ordered both ways are equal, so distinct keys sort strictly |
| `JsonFormatter.MemberOrder` | src/app/json-formatter/page.tsx:58-59 | ordering object members by key is a total preorder |
| `JsonFormatter.SortKeys` | src/app/json-formatter/page.tsx:54-66 | null, booleans, numbers and strings come back unchanged; arrays stay arrays and objects stay objects, of the same size |
| `JsonFormatter.SortKeysArray` | src/app/json-formatter/page.tsx:55-56 | element i of a sorted array is the sorted element i of the input |
| `JsonFormatter.SortKeysObjectKeys` | src/app/json-formatter/page.tsx:57-63 | the sorted object has exactly the input's key set, in ascending key order |
| `JsonFormatter.SortKeysObjectStrictlyAscending` | src/app/json-formatter/page.tsx:58-59 | for an object with distinct keys (as `JSON.parse` builds), the keys are strictly ascending |
| `JsonFormatter.SortKeysObjectValues` | src/app/json-formatter/page.tsx:60-62 | the value under each key of the sorted object is the sorted value the input held under that key |
| `JsonFormatter.SortKeysDeepSorted` | src/app/json-formatter/page.tsx:54-66 | the keys of every object at every depth of the result are in ascending order |
| `JsonFormatter.DeepSortedFixpoint` | src/app/json-formatter/page.tsx:54-66 | a value already sorted at every depth is returned unchanged |
| `JsonFormatter.SortKeysIdempotent` | src/app/json-formatter/page.tsx:54-66 | sorting twice gives the same value as sorting once |
| `JsonFormatter.SortKeysAsWritten` | src/app/json-formatter/page.tsx:58-63 | as written, no member named `__proto__` survives in a sorted object |
| `JsonFormatter.AsWrittenAgrees` | src/app/json-formatter/page.tsx:54-66 | on a value with no `"__proto__"` key at any depth, the sort as written and `SortKeys` give the same value |
| `JsonFormatter.ProtoKeyLost` | src/app/json-formatter/page.tsx:60-62 | `{"__proto__": 1}` loses its only key when sorted as written, and keeps it under `SortKeys` |
| `JsonFormatter.Formatter.constructor` | src/app/json-formatter/page.tsx:8-13 | the page starts with empty texts, indent 2, Sort Keys off and nothing copied |
| `JsonFormatter.Formatter.Prepared` | src/app/json-formatter/page.tsx:20 | with Sort Keys off the parsed value is serialised untouched; with it on, a value sorted at every depth |
| `JsonFormatter.Formatter.SetInput` | src/app/json-formatter/page.tsx:166 | typing replaces the input and nothing else |
| `JsonFormatter.Formatter.SetIndentSize` | src/app/json-formatter/page.tsx:132-140 | the indent is one of 2, 4 or 8 and nothing else changes |
| `JsonFormatter.Formatter.SetSortKeys` | src/app/json-formatter/page.tsx:122-126 | the checkbox sets the Sort Keys option and nothing else |
| `JsonFormatter.Formatter.FormatJson` | src/app/json-formatter/page.tsx:15-29 | on a parse, error is empty and output is the (optionally sorted) value serialised with the chosen indent; on a failure, output is empty and error is the failure's message |
| `JsonFormatter.Formatter.MinifyJson` | src/app/json-formatter/page.tsx:31-41 | as Format, with the compact serialisation |
| `JsonFormatter.Formatter.ValidateJson` | src/app/json-formatter/page.tsx:43-52 | on a parse, error is empty and output is "✓ Valid JSON"; on a failure, output is empty and error is the failure's message |
| `JsonFormatter.Formatter.CopyToClipboard` | src/app/json-formatter/page.tsx:68-76 | copied is raised exactly when the clipboard write succeeds; nothing else changes |
| `JsonFormatter.Formatter.ClearAll` | src/app/json-formatter/page.tsx:78-83 | input, output and error become empty and copied false; the options stay |
| `PackageSize.SizeOrZero` | src/app/package-size/page.tsx:62 | `unpackedSize || 0` is the recorded size, or 0 when there is none |
| `PackageSize.FetchPackageSize` | src/app/package-size/page.tsx:21-35 | called without a version, as the page does: 0 for a non-ok response, a thrown error, a latest tag without a version entry or a missing size; otherwise the recorded size of the latest version |
| `PackageSize.FirstDependencies` | src/app/package-size/page.tsx:70 | the first min(10, n) dependency names, in key order |
| `PackageSize.Put` | src/app/package-size/page.tsx:76 | assigning a new name appends it; assigning a known name keeps the length and every position's name, leaves every entry under another name in place and stores the new entry; the key set gains exactly that name |
| `PackageSize.PutDistinct` | src/app/package-size/page.tsx:76 | assigning into an object keeps its keys distinct |
| `PackageSize.SumDependencies` | src/app/package-size/page.tsx:66-83 | the loop ends with `depSizes` and `totalDepSize` equal to their specifications over the first ten names |
| `PackageSize.RecordedNames` | src/app/package-size/page.tsx:72-78 | a name is recorded exactly when it is among the examined names and its size is positive |
| `PackageSize.RecordedSizes` | src/app/package-size/page.tsx:74-78 | every recorded size is that dependency's positive registry size; names are recorded once; no more entries than names |
| `PackageSize.TotalIsSumOfRecorded` | src/app/package-size/page.tsx:77 | with distinct names, `totalDepSize` is the sum of the recorded sizes |
| `PackageSize.Analysis` | src/app/package-size/page.tsx:49-101 | a non-ok response gives "Package not found"; a result names the package and its latest version, and its total is its own size plus the dependency total |
| `PackageSize.AnalysisResult` | src/app/package-size/page.tsx:85-96 | a result lists at most ten dependencies, distinct and each with its positive registry size; when the dependency names are distinct (as object keys are), its total is its own size plus the sum of the listed sizes |
| `PackageSize.TrimEmptyIffBlank` | src/app/package-size/page.tsx:40 | `trim()` is empty exactly when the name is made only of JavaScript white space |
| `PackageSize.DisplayOrder` | src/app/package-size/page.tsx:207-208 | the displayed dependencies are a permutation of the recorded ones, in non-increasing size order, and entries of equal size keep their object order |
| `PackageSize.ShowsLargeWarning` | src/app/package-size/page.tsx:224 | the warning shows exactly when the total exceeds 1024 * 1024 bytes |
| `PackageSize.PackageAnalyzer.constructor` | src/app/package-size/page.tsx:16-19 | empty name, not loading, no error, no result |
| `PackageSize.PackageAnalyzer.SetPackageName` | src/app/package-size/page.tsx:133 | typing replaces the name and nothing else |
| `PackageSize.PackageAnalyzer.AnalyzePackage` | src/app/package-size/page.tsx:37-102 | a non-empty argument overrides the typed name; a blank name only sets "Please enter a package name"; otherwise loading ends false and the result or the error is that of `Analysis`, with the other one cleared |
| `Base64Tool.StripDataUrlPrefix` | src/app/base64/page.tsx:48 | the result is the whole string, or a non-empty, comma-free, shorter part of it |
| `Base64Tool.StripDataUrlSegment` | src/app/base64/page.tsx:48 | when the text between the first comma and the next comma (or the end) is non-empty, that text is the result |
| `Base64Tool.StripDataUrlKeepsWhole` | src/app/base64/page.tsx:48 | with no comma, or an empty segment after the first comma, the whole string is kept |
| `Base64Tool.Base64Page.constructor` | src/app/base64/page.tsx:8-13 | encode mode, empty texts, no file, nothing copied |
| `Base64Tool.Base64Page.SetInput` | src/app/base64/page.tsx:214 | typing replaces the input and nothing else |
| `Base64Tool.Base64Page.HandleEncode` | src/app/base64/page.tsx:15-24 | success clears error and shows the encoding; failure empties output and shows the fixed encode message |
| `Base64Tool.Base64Page.HandleDecode` | src/app/base64/page.tsx:26-35 | success clears error and shows the decoding; failure empties output and shows "Invalid Base64 string. Please check your input." |
| `Base64Tool.Base64Page.ProcessInput` | src/app/base64/page.tsx:74-80 | encode runs exactly in encode mode, decode otherwise |
| `Base64Tool.Base64Page.HandleFileUpload` | src/app/base64/page.tsx:37-62 | no file changes nothing; a read shows the stripped payload and a file label; a failed read sets "Failed to read file" |
| `Base64Tool.Base64Page.ClearFile` | src/app/base64/page.tsx:64-72 | file name, input, output and error become empty; mode and copied are untouched |
| `Base64Tool.Base64Page.CopyToClipboard` | src/app/base64/page.tsx:82-90 | copied is raised exactly when the clipboard write succeeds |
| `Base64Tool.Base64Page.ClearAll` | src/app/base64/page.tsx:92-98 | every field but the mode is reset |
| `Base64Tool.Base64Page.SwitchMode` | src/app/base64/page.tsx:100-107 | the new mode is set and every other field is reset |
| `UuidGenerator.UpperUuid` | src/app/uuid/page.tsx:16-17 | upper-casing keeps the UUID shape, and a UUID holds no line break |
| `UuidGenerator.NewUuids` | src/app/uuid/page.tsx:14-18 | the batch has `quantity` entries and entry i is the i-th random UUID, upper-cased when asked |
| `UuidGenerator.CopyAllSplits` | src/app/uuid/page.tsx:36 | the Copy All text of a non-empty list of entries without line breaks splits at line breaks back into the list |
| `UuidGenerator.CopyAllRoundTrip` | src/app/uuid/page.tsx:14-19 | a generated non-empty batch round-trips through the Copy All text |
| `UuidGenerator.Generator.constructor` | src/app/uuid/page.tsx:7-11 | no UUIDs, quantity 1, lower case, no copy marks |
| `UuidGenerator.Generator.SetQuantity` | src/app/uuid/page.tsx:66-69 | the quantity is one of 1, 5, 10, 25, 50, 100 |
| `UuidGenerator.Generator.SetUppercase` | src/app/uuid/page.tsx:91 | the checkbox sets the upper-case option and nothing else |
| `UuidGenerator.Generator.GenerateUuids` | src/app/uuid/page.tsx:13-22 | the list is replaced by exactly `quantity` new entries and both copy marks are cleared |
| `UuidGenerator.Generator.CopyToClipboard` | src/app/uuid/page.tsx:24-32 | the row is marked exactly when its clipboard write succeeds |
| `UuidGenerator.Generator.CopyAllToClipboard` | src/app/uuid/page.tsx:34-42 | the text written is the entries joined by line breaks; the mark is raised when the write succeeds |
| `UuidGenerator.Generator.ClearAll` | src/app/uuid/page.tsx:44-48 | the list is empty and both copy marks are cleared; the options stay |

## Findings

| source | as written | input that shows it | evidently intended | confidence | as-written member | corrected member |
|---|---|---|---|---|---|---|
| src/app/json-formatter/page.tsx:60-62 | `result[key] = …` on a fresh `{}` goes through the inherited `__proto__` accessor when the key is `"__proto__"`, so no own property is created and the member is dropped | `{"__proto__": 1}` with Sort Keys on formats as `{}` (lemma `JsonFormatter.ProtoKeyLost`) | every key of the input survives sorting | high for the language rule, not executed | `JsonFormatter.SortKeysAsWritten` | `JsonFormatter.SortKeys` |

## Left out

- `JSON.parse` and `JSON.stringify` are not modelled. Parsing is an argument that returns a value or the thrown error. Serialising is an argument `stringify(value, indent)`, with indent 0 for the compact form.
- `btoa` and `atob` are not modelled. They are arguments that return a string or fail.
- `crypto.randomUUID` is not modelled. Its results in call order are an input sequence, so `GenerateUuids` requires at least `quantity` of them.
- The network is replaced by a map from package name to response. `fetch` and `response.json()` are not modelled. A body that is not JSON counts as a thrown error, and so does a body without `dist-tags`, which both `analyzePackage` and `fetchPackageSize` read when no version is given.
- The optional `version` argument of `fetchPackageSize` is not modelled: the page never passes one (src/app/package-size/page.tsx:74), so the latest tag is always used.
- The file reader is not modelled. `readAsDataURL` becomes the optional data URL of the picked file.
- The clipboard write is not modelled; a `written` flag says whether it succeeded.
- The `setTimeout` calls that lower the copy marks after two seconds are not modelled.
- `console.error` on a failed clipboard write is not modelled.
- Floating point is not modelled. This covers `formatBytes`, the 0.28 gzip estimate, the download-time estimates and the file-size label; the Base64 label is taken as a given string. `PackageInfo` has no gzip field. Sizes are integers.
- Key order compares characters by code point. JavaScript's default sort compares UTF-16 code units, which differs only between astral characters and characters in U+E000–U+FFFF.
- The engine's enumeration order for integer-like keys is not modelled. `Object.keys` and `Object.entries` are taken in the order the model holds them.
- A JSON number is a `real`. Its precision and serialised form belong to the abstract parse and stringify functions.
- `toUpperCase` is modelled for ASCII only. Random UUIDs contain only hex digits and dashes.
- The DOM reset of the file input in `clearFile` (`fileInput.value = ''`) is not modelled.
- JsonFormatter.Formatter.FormatJson and JsonFormatter.Formatter.MinifyJson: with Sort Keys on they serialise the corrected `SortKeys`, not the page's sort as written. On an input with a `"__proto__"` key the page prints the member dropped (see Findings); on every other input the two agree (`AsWrittenAgrees`).
- The error text for a latest tag without a version entry is V8's wording of that TypeError.
- PackageSize.PackageAnalyzer.AnalyzePackage: its contract states the final state only. The body sets loading on and clears error and result before the lookups. The contract shows that reset only through its effect: a failure leaves no result and a success leaves no error. The awaits in between are not modelled.
- The code-screenshot page is not part of this model: it is syntax highlighting, image rendering and downloads.
- The diff checker is not part of this model: its diff comes from a library and the page only renders it.
- Layout, navigation, footer, ads, the tools grid, the text areas, and the terms and privacy pages are not part of this model: they hold no logic.
