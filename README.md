# Apache Camel catalog, validation results, dataset configurer and verifier scopes, in Dafny

This project models six small pieces of Apache Camel and proves what they promise.

- **`DefaultCamelCatalog`**:
  - the flag-gated memoisation `cache` and its three overloads;
  - where a component's AsciiDoc or HTML documentation is looked up, including the mail-scheme alias and the lookup order;
  - `findLabels`, the sorted, repeat-free union of comma-separated labels;
  - `findNames`, the label-filtered name search.
- **`EndpointValidationResult`**: lazily created, insertion-ordered name sets (lenient, not consumer-only, not producer-only), the error counter, `isSuccess`, and the two-column summary text.
- **`ConfigurationPropertiesValidationResult`**: the field setters, `shortKey`, and the same summary printed with shortened keys.
- **`CamelCatalogJSonSchemaResolver`**: the path of a JSON schema next to a class, and the two-tier lookup (version manager, then class loader) that swallows IOExceptions.
- **`DataSetEndpointConfigurer.configure`**: the name switch over the dataset endpoint's 22 options, in exact-spelling and ignore-case modes.
- **`ComponentVerifierExtension`**: the `Status` and `Scope` enums, `Scope.fromString`, the standard codes and attributes, and `getDetail`.

How Java is represented:

- Java's null is `Option.None`. A call's outcome is `Completion`: a value, null, or an escaping exception.
- Strings are `seq<char>`, one character per Unicode scalar value. "## Left out" says where this differs from Java's UTF-16 strings.
- `TreeSet<String>` is a strictly sorted sequence in `compareTo` order.
- Resource streams, model loaders, pattern matching and type conversion are parameters.
- Mutable objects are classes: the catalog with its cache map, both validation results, and the dataset endpoint with one field per option.
- Their methods are proved against the functions that specify them: `AddOnce`, `Summary`, `NamesByLabel`, `Labels`, `ConfigureOutcome`.
- Shared helpers live in four modules:
  - `JavaLang`: null, outcomes, Java integer widths and runs of one value;
  - `JavaStrings`: `indexOf`, `lastIndexOf`, `substring`, `replace`, ASCII case mapping, `equalsIgnoreCase`, `split(",")`;
  - `SortedStrings`: `TreeSet` order and insertion;
  - `Resources`: resource streams and package directories.

## Model

| member | source | states |
|---|---|---|
| JavaStrings.IndexOf | core/camel-api/src/main/java/org/apache/camel/catalog/ConfigurationPropertiesValidationResult.java:119 | `indexOf(c)` is -1 exactly when `c` is absent, else the first position holding `c` |
| JavaStrings.LastIndexOf | core/camel-api/src/main/java/org/apache/camel/catalog/ConfigurationPropertiesValidationResult.java:120 | `lastIndexOf(c)` is -1 exactly when `c` is absent, else the last position holding `c` |
| JavaStrings.Substring | catalog/camel-catalog/src/main/java/org/apache/camel/catalog/CamelCatalogJSonSchemaResolver.java:43 | `substring(begin, end)` throws StringIndexOutOfBoundsException exactly when the bounds are out of order or out of range, and otherwise returns the text between them |
| JavaStrings.Replace | catalog/camel-catalog/src/main/java/org/apache/camel/catalog/CamelCatalogJSonSchemaResolver.java:44 | `replace(from, to)` keeps the length and swaps exactly the occurrences of `from` |
| JavaStrings.ToLower | components/camel-dataset/src/generated/java/org/apache/camel/component/dataset/DataSetEndpointConfigurer.java:17 | `toLowerCase()` keeps the length, leaves no upper-case letter, and keeps each character the same letter ignoring case |
| JavaStrings.ToUpper | core/camel-api/src/main/java/org/apache/camel/component/extension/ComponentVerifierExtension.java:61 | `toUpperCase()` keeps the length, leaves no lower-case letter, and keeps each character the same letter ignoring case |
| JavaStrings.ToLowerIdempotent | components/camel-dataset/src/generated/java/org/apache/camel/component/dataset/DataSetEndpointConfigurer.java:17 | lower-casing a lower-cased name changes nothing more |
| JavaStrings.CaseFoldingIsEqualsIgnoreCase | catalog/camel-catalog/src/main/java/org/apache/camel/catalog/DefaultCamelCatalog.java:111 | two texts are `equalsIgnoreCase` exactly when their upper-cased forms are equal, and exactly when their lower-cased forms are equal |
| JavaStrings.JoinPieces | catalog/camel-catalog/src/main/java/org/apache/camel/catalog/DefaultCamelCatalog.java:108 | cutting a label text at every comma loses nothing: joining the pieces with commas gives the text back |
| JavaStrings.PiecesOfJoin | catalog/camel-catalog/src/main/java/org/apache/camel/catalog/DefaultCamelCatalog.java:108 | cutting comma-free parts joined by commas gives the parts back |
| JavaStrings.Split | catalog/camel-catalog/src/main/java/org/apache/camel/catalog/DefaultCamelCatalog.java:108 | `split(",")`: a text without a comma is its own single part; otherwise the comma pieces with the trailing empty ones dropped; no part holds a comma |
| JavaStrings.SplitExamples | catalog/camel-catalog/src/main/java/org/apache/camel/catalog/DefaultCamelCatalog.java:190 | `"a,,b,"` splits into a, empty, b; the empty text into one empty part; `","` into no part |
| SortedStrings.LessTransitive | catalog/camel-catalog/src/main/java/org/apache/camel/catalog/DefaultCamelCatalog.java:184 | `String.compareTo` order is transitive |
| SortedStrings.LessTotal | catalog/camel-catalog/src/main/java/org/apache/camel/catalog/DefaultCamelCatalog.java:184 | `String.compareTo` order is total and antisymmetric |
| SortedStrings.Insert | catalog/camel-catalog/src/main/java/org/apache/camel/catalog/DefaultCamelCatalog.java:191 | `TreeSet.add` keeps the set sorted without repeats, adds exactly the new text, and changes nothing for a text already present |
| SortedStrings.SortedIsUnique | catalog/camel-catalog/src/main/java/org/apache/camel/catalog/DefaultCamelCatalog.java:183-195 | two sorted repeat-free sequences with the same texts are equal, so the `TreeSet`'s content fixes its order |
| Resources.LoadResource | catalog/camel-catalog/src/main/java/org/apache/camel/catalog/DefaultCamelCatalog.java:262-268 | `loadResource` returns the resource's text when the stream opens and reads, and null when there is no stream or an IOException occurs; nothing escapes |
| Resources.PackagePath | catalog/camel-catalog/src/main/java/org/apache/camel/catalog/DefaultCamelCatalog.java:148-150 | a class name's package as a directory: defined exactly when the name has a dot, holds no dot, as long as the package name; a name without a dot throws StringIndexOutOfBoundsException |
| Resources.PackagePathOfQualifiedName | catalog/camel-catalog/src/main/java/org/apache/camel/catalog/DefaultCamelCatalog.java:148-150 | for class `pkg.Simple` the directory is `pkg` with dots turned into slashes |
| CamelCatalogJSonSchemaResolver.LoadResourceFromVersionManager | catalog/camel-catalog/src/main/java/org/apache/camel/catalog/CamelCatalogJSonSchemaResolver.java:53-72 | the version manager is tried first and its text wins; the class loader is tried only when present and the version manager gave no text; its text is returned, else null; no IOException escapes |
| CamelCatalogJSonSchemaResolver.NullWhenAllTiersMiss | catalog/camel-catalog/src/main/java/org/apache/camel/catalog/CamelCatalogJSonSchemaResolver.java:61-71 | null comes back exactly when the version manager misses and the class loader is absent or misses too |
| CamelCatalogJSonSchemaResolver.SchemaPath | catalog/camel-catalog/src/main/java/org/apache/camel/catalog/CamelCatalogJSonSchemaResolver.java:43-45 | the schema path exists exactly when the class name has a dot, and is as long as the package, a slash, the file name and `.json` |
| CamelCatalogJSonSchemaResolver.LoadFromClasspath | catalog/camel-catalog/src/main/java/org/apache/camel/catalog/CamelCatalogJSonSchemaResolver.java:41-51 | a null class name gives null without any lookup; a name without a dot throws without any lookup; otherwise lookups happen, and only StringIndexOutOfBoundsException can escape |
| CamelCatalogJSonSchemaResolver.SchemaLookedUpNextToClass | catalog/camel-catalog/src/main/java/org/apache/camel/catalog/CamelCatalogJSonSchemaResolver.java:43-47 | the schema of `pkg.Simple` is looked up at `pkg` (dots as slashes) + `/` + file name + `.json`, version manager first |
| DefaultCamelCatalog.DocName | catalog/camel-catalog/src/main/java/org/apache/camel/catalog/DefaultCamelCatalog.java:137-142 | the six mail schemes are filed under `mail`, every other name under itself |
| DefaultCamelCatalog.DocNameAliases | catalog/camel-catalog/src/main/java/org/apache/camel/catalog/DefaultCamelCatalog.java:137-142 | only the mail schemes are renamed; a name maps to `mail` exactly when it is `mail` or a mail scheme; renaming is idempotent |
| DefaultCamelCatalog.DocFileInjective | catalog/camel-catalog/src/main/java/org/apache/camel/catalog/DefaultCamelCatalog.java:143 | two documentation files are the same path exactly when name and kind are the same |
| DefaultCamelCatalog.DocLocation | catalog/camel-catalog/src/main/java/org/apache/camel/catalog/DefaultCamelCatalog.java:144-156 | the bundled file exactly when the probed name is bundled (the original name for AsciiDoc, the aliased one for HTML); otherwise, for a third-party component, its class's package directory + `/` + name + suffix when the class name has a dot, and a StringIndexOutOfBoundsException exactly when it has none; nothing exactly when there is no such component |
| DefaultCamelCatalog.ExtraDocPath | catalog/camel-catalog/src/main/java/org/apache/camel/catalog/DefaultCamelCatalog.java:147-152 | a third-party component `pkg.Simple` has its documentation at `pkg` (dots as slashes) + `/` + name + suffix |
| DefaultCamelCatalog.MailDocsProbeDifferentNames | catalog/camel-catalog/src/main/java/org/apache/camel/catalog/DefaultCamelCatalog.java:169 | for a bundled mail scheme with `mail` not bundled, the AsciiDoc lookup finds the bundled `mail` file while the HTML lookup finds nothing |
| DefaultCamelCatalog.Catalog.constructor | catalog/camel-catalog/src/main/java/org/apache/camel/catalog/DefaultCamelCatalog.java:96-99 | a new catalog has the given caching flag and an empty cache |
| DefaultCamelCatalog.Catalog.CacheKeyed | catalog/camel-catalog/src/main/java/org/apache/camel/catalog/DefaultCamelCatalog.java:231-244 | with caching on, a stored entry under the key is returned and the loader is not called; otherwise the loader is called with the name, and only a non-null result is stored, under the key; with caching off nothing is stored |
| DefaultCamelCatalog.Catalog.CacheByName | catalog/camel-catalog/src/main/java/org/apache/camel/catalog/DefaultCamelCatalog.java:247-260 | the same as `CacheKeyed` with the key as the loader's argument |
| DefaultCamelCatalog.Catalog.CacheSupplied | catalog/camel-catalog/src/main/java/org/apache/camel/catalog/DefaultCamelCatalog.java:215-227 | the same for a supplier: stored entry returned without loading, a non-null load stored, caching off stores nothing |
| DefaultCamelCatalog.Catalog.ComponentDoc | catalog/camel-catalog/src/main/java/org/apache/camel/catalog/DefaultCamelCatalog.java:135-181 | the documentation text memoised under its bundled path: the stored text, or what `LoadDoc` gives, stored only when non-null |
| DefaultCamelCatalog.SelectingParts | catalog/camel-catalog/src/main/java/org/apache/camel/catalog/DefaultCamelCatalog.java:109-117 | at most one hit per part, and none exactly when no part equals the filter ignoring case or matches it; a bad pattern is no hit |
| DefaultCamelCatalog.NamesByLabelAppend | catalog/camel-catalog/src/main/java/org/apache/camel/catalog/DefaultCamelCatalog.java:101-121 | the answer for a list is the answers for its two halves one after the other, so input order is kept |
| DefaultCamelCatalog.NamesByLabelCount | catalog/camel-catalog/src/main/java/org/apache/camel/catalog/DefaultCamelCatalog.java:104-118 | each name is listed as often as it occurs times its number of selecting label parts; names without a model never appear |
| DefaultCamelCatalog.AppendPerSelectingPart | catalog/camel-catalog/src/main/java/org/apache/camel/catalog/DefaultCamelCatalog.java:109-117 | the inner loop appends the name once per selecting part |
| DefaultCamelCatalog.FindNames | catalog/camel-catalog/src/main/java/org/apache/camel/catalog/DefaultCamelCatalog.java:101-121 | `findNames` returns `NamesByLabel` |
| DefaultCamelCatalog.LabelsMembership | catalog/camel-catalog/src/main/java/org/apache/camel/catalog/DefaultCamelCatalog.java:186-193 | a label is collected exactly when it is a comma part of the label of some name whose model loads |
| DefaultCamelCatalog.FindLabels | catalog/camel-catalog/src/main/java/org/apache/camel/catalog/DefaultCamelCatalog.java:183-195 | `findLabels` is sorted without repeats and holds exactly the collected labels |
| ValidationSummary.PadLeft | core/camel-api/src/main/java/org/apache/camel/catalog/EndpointValidationResult.java:140 | `%<width>s`: as wide as the column or the text, whichever is longer; the text at the right end; spaces in front |
| ValidationSummary.RowColumns | core/camel-api/src/main/java/org/apache/camel/catalog/EndpointValidationResult.java:139-142 | in a line whose key fits, the line starts with a line break and a tab, the key ends at the column edge, four spaces follow, then the value |
| ValidationSummary.Width | core/camel-api/src/main/java/org/apache/camel/catalog/EndpointValidationResult.java:121-124 | the key column is at least 24, fits every key, and is 24 or the length of some key |
| ValidationSummary.ColumnWidth | core/camel-api/src/main/java/org/apache/camel/catalog/EndpointValidationResult.java:121-124 | the `maxLen` loop computes `Width` |
| ValidationSummary.Lines | core/camel-api/src/main/java/org/apache/camel/catalog/EndpointValidationResult.java:139-142 | one line per option, line `k` printing option `k` |
| ValidationSummary.RowAt | core/camel-api/src/main/java/org/apache/camel/catalog/EndpointValidationResult.java:139-142 | the line of option `i` sits between the lines of the options before and after it |
| ValidationSummary.AppendRows | core/camel-api/src/main/java/org/apache/camel/catalog/EndpointValidationResult.java:139-142 | the option loop appends exactly the option lines to the text so far |
| ValidationSummary.HeaderOnlyWhenRequested | core/camel-api/src/main/java/org/apache/camel/catalog/EndpointValidationResult.java:129-138 | the summary starts with the header block exactly when it is asked for, and the subject line follows |
| EndpointValidation.AddOnce | core/camel-api/src/main/java/org/apache/camel/catalog/EndpointValidationResult.java:66-74 | after an add the set holds exactly the old names and the new one, grows by one exactly when the name is new, and keeps the old names in front |
| EndpointValidation.AddOnceDistinct | core/camel-api/src/main/java/org/apache/camel/catalog/EndpointValidationResult.java:57-64 | adding keeps the set free of repeats |
| EndpointValidation.AddOnceIdempotent | core/camel-api/src/main/java/org/apache/camel/catalog/EndpointValidationResult.java:66-74 | adding the same name again is not fresh and changes nothing |
| EndpointValidation.AddOnceKeepsOrder | core/camel-api/src/main/java/org/apache/camel/catalog/EndpointValidationResult.java:57-64 | names keep their insertion positions |
| EndpointValidation.EndpointValidationResult.constructor | core/camel-api/src/main/java/org/apache/camel/catalog/EndpointValidationResult.java:37-43 | a new result has the given uri and no sets |
| EndpointValidation.EndpointValidationResult.AddLenient | core/camel-api/src/main/java/org/apache/camel/catalog/EndpointValidationResult.java:57-64 | records the name once; `isSuccess` is unchanged |
| EndpointValidation.EndpointValidationResult.AddNotConsumerOnly | core/camel-api/src/main/java/org/apache/camel/catalog/EndpointValidationResult.java:66-74 | records the name once, counts one error exactly when it is new, and `isSuccess` is false afterwards |
| EndpointValidation.EndpointValidationResult.AddNotProducerOnly | core/camel-api/src/main/java/org/apache/camel/catalog/EndpointValidationResult.java:76-84 | the same on its own set |
| EndpointValidation.EndpointValidationResult.SummaryErrorMessage | core/camel-api/src/main/java/org/apache/camel/catalog/EndpointValidationResult.java:116-145 | the text is the header when asked for, the uri line, then the option lines in a column of `Width` of the keys; the two flags change nothing; never null |
| EndpointValidation.EndpointValidationResult.SummaryErrorMessageWithDefaults | core/camel-api/src/main/java/org/apache/camel/catalog/EndpointValidationResult.java:104-106 | the same text as the three-argument form |
| ConfigurationPropertiesValidation.ShortKeyIsSuffix | core/camel-api/src/main/java/org/apache/camel/catalog/ConfigurationPropertiesValidationResult.java:118-124 | the short key is a suffix of the key, and the whole key when it has no dot or starts with one |
| ConfigurationPropertiesValidation.ShortKeyAfterLastDot | core/camel-api/src/main/java/org/apache/camel/catalog/ConfigurationPropertiesValidationResult.java:119-120 | with a dot past the start, the short key holds no dot, is shorter than the key, and follows a dot |
| ConfigurationPropertiesValidation.ShortKeyOfTrailingDot | core/camel-api/src/main/java/org/apache/camel/catalog/ConfigurationPropertiesValidationResult.java:120 | a key with a dot past the start that ends with a dot has an empty short key |
| ConfigurationPropertiesValidation.ShortKeyIdempotent | core/camel-api/src/main/java/org/apache/camel/catalog/ConfigurationPropertiesValidationResult.java:118-124 | shortening twice is shortening once |
| ConfigurationPropertiesValidation.ShortKeyExamples | core/camel-api/src/main/java/org/apache/camel/catalog/ConfigurationPropertiesValidationResult.java:118-124 | `a.b.c` gives `c`; `.a.b` and `name` stay whole |
| ConfigurationPropertiesValidation.ShortenKeys | core/camel-api/src/main/java/org/apache/camel/catalog/ConfigurationPropertiesValidationResult.java:110-111 | every option keeps its place and value with its key shortened |
| ConfigurationPropertiesValidation.ShortKeysAligned | core/camel-api/src/main/java/org/apache/camel/catalog/ConfigurationPropertiesValidationResult.java:92-113 | line `i` prints the short key of option `i`, which fits the column computed from the full keys |
| ConfigurationPropertiesValidation.ConfigurationPropertiesValidationResult.constructor | core/camel-api/src/main/java/org/apache/camel/catalog/ConfigurationPropertiesValidationResult.java:34-35 | no file name, no text, line 0, not accepted |
| ConfigurationPropertiesValidation.ConfigurationPropertiesValidationResult.SetFileName | core/camel-api/src/main/java/org/apache/camel/catalog/ConfigurationPropertiesValidationResult.java:41-43 | stores the file name and changes no other field |
| ConfigurationPropertiesValidation.ConfigurationPropertiesValidationResult.SetText | core/camel-api/src/main/java/org/apache/camel/catalog/ConfigurationPropertiesValidationResult.java:49-51 | stores the text and changes no other field |
| ConfigurationPropertiesValidation.ConfigurationPropertiesValidationResult.SetLineNumber | core/camel-api/src/main/java/org/apache/camel/catalog/ConfigurationPropertiesValidationResult.java:57-59 | stores the line number and changes no other field |
| ConfigurationPropertiesValidation.ConfigurationPropertiesValidationResult.SetAccepted | core/camel-api/src/main/java/org/apache/camel/catalog/ConfigurationPropertiesValidationResult.java:65-67 | stores the flag and changes no other field |
| ConfigurationPropertiesValidation.ConfigurationPropertiesValidationResult.SummaryErrorMessage | core/camel-api/src/main/java/org/apache/camel/catalog/ConfigurationPropertiesValidationResult.java:87-116 | the header when asked for, the text line, then the options with short keys in a column of `Width` of the full keys; never null |
| ConfigurationPropertiesValidation.ConfigurationPropertiesValidationResult.SummaryErrorMessageWithDefaults | core/camel-api/src/main/java/org/apache/camel/catalog/ConfigurationPropertiesValidationResult.java:75-77 | the same text as the three-argument form |
| DataSetEndpointConfigurer.AllPropertiesListed | components/camel-dataset/src/generated/java/org/apache/camel/component/dataset/DataSetEndpointConfigurer.java:18-60 | the switch knows 22 options, each once |
| DataSetEndpointConfigurer.NamesSelectTheirProperty | components/camel-dataset/src/generated/java/org/apache/camel/component/dataset/DataSetEndpointConfigurer.java:18-60 | the camelCase and the lower-case spelling of each option select it |
| DataSetEndpointConfigurer.OnlyListedNamesSelect | components/camel-dataset/src/generated/java/org/apache/camel/component/dataset/DataSetEndpointConfigurer.java:17-61 | a name selects an option only if it is one of that option's spellings; every other name reaches `default` |
| DataSetEndpointConfigurer.LowerNameIsLowerCase | components/camel-dataset/src/generated/java/org/apache/camel/component/dataset/DataSetEndpointConfigurer.java:18-60 | each lower-case label is the camelCase label lower-cased |
| DataSetEndpointConfigurer.ExactSpellingsRecognised | components/camel-dataset/src/generated/java/org/apache/camel/component/dataset/DataSetEndpointConfigurer.java:17-61 | without `ignoreCase`, a name selects an option exactly when it is its camelCase or lower-case spelling |
| DataSetEndpointConfigurer.AnyCasingRecognised | components/camel-dataset/src/generated/java/org/apache/camel/component/dataset/DataSetEndpointConfigurer.java:17-61 | with `ignoreCase`, a name selects an option exactly when it equals the camelCase spelling ignoring case |
| DataSetEndpointConfigurer.ExactSpellingExamples | components/camel-dataset/src/generated/java/org/apache/camel/component/dataset/DataSetEndpointConfigurer.java:18-19 | `DataSetIndex` and `SYNCHRONOUS` select nothing without `ignoreCase` |
| DataSetEndpointConfigurer.IgnoredCaseExamples | components/camel-dataset/src/generated/java/org/apache/camel/component/dataset/DataSetEndpointConfigurer.java:24-25 | with `ignoreCase`, `MINRATE`, `DataSetIndex` and `SYNCHRONOUS` select their options |
| DataSetEndpointConfigurer.Coerce | components/camel-dataset/src/generated/java/org/apache/camel/component/dataset/DataSetEndpointConfigurer.java:19 | `property(ctx, type, value)`: a value of the option's type passes; null into a primitive throws NullPointerException; any other value throws |
| DataSetEndpointConfigurer.GetWith | components/camel-dataset/src/generated/java/org/apache/camel/component/dataset/DataSetEndpointConfigurer.java:19-60 | setting an option changes that option to the value and no other option |
| DataSetEndpointConfigurer.SwitchSelectsSpelledOption | components/camel-dataset/src/generated/java/org/apache/camel/component/dataset/DataSetEndpointConfigurer.java:17-61 | in both modes the switch selects exactly the option the name spells |
| DataSetEndpointConfigurer.ConfigureOutcome | components/camel-dataset/src/generated/java/org/apache/camel/component/dataset/DataSetEndpointConfigurer.java:15-63 | null name throws; false exactly for an unknown name; true exactly for a known name and a fitting value; on anything but true the settings are unchanged; on true only the selected option changes, to the value |
| DataSetEndpointConfigurer.ConfigureSetsSpelledOption | components/camel-dataset/src/generated/java/org/apache/camel/component/dataset/DataSetEndpointConfigurer.java:17-60 | a name spelling an option, with a fitting value, returns true, sets that option and leaves the others |
| DataSetEndpointConfigurer.DataSetEndpoint.SetDataSetIndex | components/camel-dataset/src/generated/java/org/apache/camel/component/dataset/DataSetEndpointConfigurer.java:19 | `setDataSetIndex` stores the value in `dataSetIndex`; no other field changes |
| DataSetEndpointConfigurer.DataSetEndpoint.SetBridgeErrorHandler | components/camel-dataset/src/generated/java/org/apache/camel/component/dataset/DataSetEndpointConfigurer.java:21 | `setBridgeErrorHandler` stores the value in `bridgeErrorHandler`; no other field changes |
| DataSetEndpointConfigurer.DataSetEndpoint.SetInitialDelay | components/camel-dataset/src/generated/java/org/apache/camel/component/dataset/DataSetEndpointConfigurer.java:23 | `setInitialDelay` stores the value in `initialDelay`; no other field changes |
| DataSetEndpointConfigurer.DataSetEndpoint.SetMinRate | components/camel-dataset/src/generated/java/org/apache/camel/component/dataset/DataSetEndpointConfigurer.java:25 | `setMinRate` stores the value in `minRate`; no other field changes |
| DataSetEndpointConfigurer.DataSetEndpoint.SetPreloadSize | components/camel-dataset/src/generated/java/org/apache/camel/component/dataset/DataSetEndpointConfigurer.java:27 | `setPreloadSize` stores the value in `preloadSize`; no other field changes |
| DataSetEndpointConfigurer.DataSetEndpoint.SetProduceDelay | components/camel-dataset/src/generated/java/org/apache/camel/component/dataset/DataSetEndpointConfigurer.java:29 | `setProduceDelay` stores the value in `produceDelay`; no other field changes |
| DataSetEndpointConfigurer.DataSetEndpoint.SetExceptionHandler | components/camel-dataset/src/generated/java/org/apache/camel/component/dataset/DataSetEndpointConfigurer.java:31 | `setExceptionHandler` stores the value in `exceptionHandler`; no other field changes |
| DataSetEndpointConfigurer.DataSetEndpoint.SetExchangePattern | components/camel-dataset/src/generated/java/org/apache/camel/component/dataset/DataSetEndpointConfigurer.java:33 | `setExchangePattern` stores the value in `exchangePattern`; no other field changes |
| DataSetEndpointConfigurer.DataSetEndpoint.SetAssertPeriod | components/camel-dataset/src/generated/java/org/apache/camel/component/dataset/DataSetEndpointConfigurer.java:35 | `setAssertPeriod` stores the value in `assertPeriod`; no other field changes |
| DataSetEndpointConfigurer.DataSetEndpoint.SetConsumeDelay | components/camel-dataset/src/generated/java/org/apache/camel/component/dataset/DataSetEndpointConfigurer.java:37 | `setConsumeDelay` stores the value in `consumeDelay`; no other field changes |
| DataSetEndpointConfigurer.DataSetEndpoint.SetExpectedCount | components/camel-dataset/src/generated/java/org/apache/camel/component/dataset/DataSetEndpointConfigurer.java:39 | `setExpectedCount` stores the value in `expectedCount`; no other field changes |
| DataSetEndpointConfigurer.DataSetEndpoint.SetFailFast | components/camel-dataset/src/generated/java/org/apache/camel/component/dataset/DataSetEndpointConfigurer.java:41 | `setFailFast` stores the value in `failFast`; no other field changes |
| DataSetEndpointConfigurer.DataSetEndpoint.SetLazyStartProducer | components/camel-dataset/src/generated/java/org/apache/camel/component/dataset/DataSetEndpointConfigurer.java:43 | `setLazyStartProducer` stores the value in `lazyStartProducer`; no other field changes |
| DataSetEndpointConfigurer.DataSetEndpoint.SetReportGroup | components/camel-dataset/src/generated/java/org/apache/camel/component/dataset/DataSetEndpointConfigurer.java:45 | `setReportGroup` stores the value in `reportGroup`; no other field changes |
| DataSetEndpointConfigurer.DataSetEndpoint.SetResultMinimumWaitTime | components/camel-dataset/src/generated/java/org/apache/camel/component/dataset/DataSetEndpointConfigurer.java:47 | `setResultMinimumWaitTime` stores the value in `resultMinimumWaitTime`; no other field changes |
| DataSetEndpointConfigurer.DataSetEndpoint.SetResultWaitTime | components/camel-dataset/src/generated/java/org/apache/camel/component/dataset/DataSetEndpointConfigurer.java:49 | `setResultWaitTime` stores the value in `resultWaitTime`; no other field changes |
| DataSetEndpointConfigurer.DataSetEndpoint.SetRetainFirst | components/camel-dataset/src/generated/java/org/apache/camel/component/dataset/DataSetEndpointConfigurer.java:51 | `setRetainFirst` stores the value in `retainFirst`; no other field changes |
| DataSetEndpointConfigurer.DataSetEndpoint.SetRetainLast | components/camel-dataset/src/generated/java/org/apache/camel/component/dataset/DataSetEndpointConfigurer.java:53 | `setRetainLast` stores the value in `retainLast`; no other field changes |
| DataSetEndpointConfigurer.DataSetEndpoint.SetSleepForEmptyTest | components/camel-dataset/src/generated/java/org/apache/camel/component/dataset/DataSetEndpointConfigurer.java:55 | `setSleepForEmptyTest` stores the value in `sleepForEmptyTest`; no other field changes |
| DataSetEndpointConfigurer.DataSetEndpoint.SetCopyOnExchange | components/camel-dataset/src/generated/java/org/apache/camel/component/dataset/DataSetEndpointConfigurer.java:57 | `setCopyOnExchange` stores the value in `copyOnExchange`; no other field changes |
| DataSetEndpointConfigurer.DataSetEndpoint.SetBasicPropertyBinding | components/camel-dataset/src/generated/java/org/apache/camel/component/dataset/DataSetEndpointConfigurer.java:59 | `setBasicPropertyBinding` stores the value in `basicPropertyBinding`; no other field changes |
| DataSetEndpointConfigurer.DataSetEndpoint.SetSynchronous | components/camel-dataset/src/generated/java/org/apache/camel/component/dataset/DataSetEndpointConfigurer.java:60 | `setSynchronous` stores the value in `synchronous`; no other field changes |
| DataSetEndpointConfigurer.DataSetEndpoint.Set | components/camel-dataset/src/generated/java/org/apache/camel/component/dataset/DataSetEndpointConfigurer.java:19-60 | the setter chosen for an option changes the endpoint's settings as `With` says |
| DataSetEndpointConfigurer.Configure | components/camel-dataset/src/generated/java/org/apache/camel/component/dataset/DataSetEndpointConfigurer.java:15-63 | `configure` returns and leaves the endpoint as `ConfigureOutcome` says |
| ComponentVerifierExtension.StatusesListed | core/camel-api/src/main/java/org/apache/camel/component/extension/ComponentVerifierExtension.java:39-46 | the statuses are exactly OK, ERROR and UNSUPPORTED, each once, with different names |
| ComponentVerifierExtension.ScopeValueOf | core/camel-api/src/main/java/org/apache/camel/component/extension/ComponentVerifierExtension.java:61 | `valueOf` gives a scope exactly for its constant name; null throws NullPointerException, any other text IllegalArgumentException |
| ComponentVerifierExtension.ScopesListed | core/camel-api/src/main/java/org/apache/camel/component/extension/ComponentVerifierExtension.java:55-58 | the scopes are exactly PARAMETERS and CONNECTIVITY, with upper-case names |
| ComponentVerifierExtension.FromStringIgnoresCase | core/camel-api/src/main/java/org/apache/camel/component/extension/ComponentVerifierExtension.java:60-62 | `fromString` accepts exactly the spellings of a scope name in any letter case |
| ComponentVerifierExtension.FromStringRejects | core/camel-api/src/main/java/org/apache/camel/component/extension/ComponentVerifierExtension.java:61 | null throws NullPointerException; a text that spells no scope throws IllegalArgumentException |
| ComponentVerifierExtension.FromStringRoundTrip | core/camel-api/src/main/java/org/apache/camel/component/extension/ComponentVerifierExtension.java:60-62 | a scope's name and its lower-case spelling parse back to the scope |
| ComponentVerifierExtension.AsCode | core/camel-api/src/main/java/org/apache/camel/component/extension/ComponentVerifierExtension.java:85-87 | `asCode` makes a plain code whose `getName` is the text |
| ComponentVerifierExtension.StandardCodeNamesDistinct | core/camel-api/src/main/java/org/apache/camel/component/extension/ComponentVerifierExtension.java:103-116 | the thirteen standard codes have different names |
| ComponentVerifierExtension.AsAttributeRoundTrip | core/camel-api/src/main/java/org/apache/camel/component/extension/ComponentVerifierExtension.java:89-91 | `getName` undoes `asAttribute`, which rebuilds exactly the plain attributes |
| ComponentVerifierExtension.StandardAttributeNamesDistinct | core/camel-api/src/main/java/org/apache/camel/component/extension/ComponentVerifierExtension.java:127-139 | the seven attribute constants have different names |
| ComponentVerifierExtension.GetDetail | core/camel-api/src/main/java/org/apache/camel/component/extension/ComponentVerifierExtension.java:72-78 | null without a details map; otherwise the entry for the attribute, null when there is none |
| ComponentVerifierExtension.GetDetailByNameAgrees | core/camel-api/src/main/java/org/apache/camel/component/extension/ComponentVerifierExtension.java:80-82 | looking a detail up by name finds what looking it up by any attribute of that name finds |

## Left out

- `getArchetypesCount` (XML, XPath and a floating-point cast) and `getAlternativeComponentName` (JSON schema parsing) are not modelled.
- `findComponentNames` and how `extraComponents` is filled are not modelled. Both are inputs.
- `CatalogHelper.matchWildcard` and `String.matches` are one parameter that answers matched, not matched, or bad pattern. A bad pattern counts as no hit, as the catch does.
- `property(camelContext, type, value)` type conversion is not modelled. A value of the option's type is taken as is, null into a primitive option throws NullPointerException, and any other value throws a conversion failure. The real converter's parsing of text into numbers and enums is out of scope.
- `PropertiesValidationResult` shows only its fields. Its `isSuccess()` is the field `baseSuccess`.
- The `options` map both summaries iterate over is not declared in the files modelled, so its type and iteration order are not shown. The model takes it as a sequence of key/value pairs, the map's entries in its iteration order, passed to the constructors. "Order" in `RowAt`, `Lines` and `ShortenKeys` means that iteration order.
- `EndpointValidation.EndpointValidationResult.AddNotConsumerOnly`: `errors` is an unbounded integer, so the 32-bit wrap-around of `errors++` after 2^31 - 1 errors is not modelled. The same holds for `AddNotProducerOnly`.
- Both `summaryErrorMessage` methods are documented to return null when there are no errors. The code never returns null, and the model follows the code. The `ignoreDeprecated` and `includeWarnings` flags and the unused `isSuccess()` call have no effect on the text.
- `String.format` is modelled only for non-null keys and values: right-aligned padding to the column. Printing a null as `null` is left out.
- Case mapping is ASCII only. Java's locale-dependent and Unicode case mapping is left out.
- A Java `String` is a sequence of UTF-16 code units, while a Dafny `string` is a sequence of Unicode scalar values. For text with characters outside the Basic Multilingual Plane, `length()` and `compareTo` differ from the model. `length()` counts two units per such character, and `compareTo` compares surrogate units, so U+1F600 sorts before U+FF01 in Java. Therefore, for such labels the order of `findLabels`' `TreeSet` (`SortedStrings.Less`) can differ. The key column's width and padding (`ValidationSummary.Width`, `ValidationSummary.PadLeft`) can differ too. Cutting at `.` or `,` gives the same text in both representations.
- The `cache` HashMap is unsynchronised. The model covers single-threaded use only.
- Getters are the classes' fields, read directly.
- In `ComponentVerifierExtension`, the helper classes (`ErrorCode`, `ErrorAttribute` and the others) are not part of this model. Attributes are taken to be equal when their names are, so the details map is keyed by attribute name.
- `ComponentVerifierExtension.verify` and the rest of the interfaces have no behaviour to model.
- The DataSetEndpoint class itself is not part of this model. Its setters are taken to store their argument, and an option's default value is whatever the endpoint held before.
- The switch lists 22 options: 21 with two spellings, plus `synchronous` with one. The model has all 22.
- A null name, text or label in places the source does not check for null (for example a model whose label is null) is outside the model: labels and keys are plain strings.
