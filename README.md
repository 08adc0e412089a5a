# KubeVirt metrics documentation generator and deprecated feature gates

A Dafny model of two parts of KubeVirt.

**The metrics documentation generator** (`tools/doc-generator`). It scrapes the
`/metrics` endpoint of an in-process handler. It keeps every `# HELP` comment
line that mentions `kubevirt_` and that its outer loop reaches. For each such
line it takes the metric's name and a description whose first word is
title-cased. A search forward through the same line scanner finds the metric's
`# TYPE` line and its title-cased type. The lines that search consumes are
never seen by the outer loop. So a `# HELP` line between another help line and
that line's `# TYPE` line is skipped. Every line after a help line whose type
never comes is skipped too (lemma
`ExpositionProperties.MissingTypeSwallowsRest`). The parsed metrics are appended to a fixed catalog of metrics the
endpoint does not expose by default. The catalog has thirteen written-in
entries and then one entry per recording rule. The list is sorted by name with
`sort.Sort` and rendered into a Markdown document between a fixed opening and
a fixed footer.

**The deprecated feature gates table** (`pkg/virt-config`). This is a table of
gates with a lifecycle state: GA, deprecated or discontinued. At start-up, a
pass gives every entry without a message a generated warning. A lookup
returns a copy of the first entry with a given name. A gate is enabled when:
- it is GA; or
- it is not discontinued and it is listed in the cluster's developer
  configuration.

Modules:

- `GoStrings` (go_strings.dfy): `strings.Split`/`Join` on a single space,
  `HasPrefix`, `Contains` and `strings.Title`, with their round-trip and
  word-level lemmas.
- `Metrics` (metric.dfy):
  - the `metric` record and Go's `<` on names, proved a strict total order;
  - `metricList` as a class over an array, with `Len`, `Less`, `Swap`,
    append through the pointer, and `sort.Sort` as an in-place insertion
    sort that goes through `Less` and `Swap`.
- `Exposition` (exposition.dfy):
  - `bufio.Scanner` as a class with a shared cursor;
  - `parseMetricDesc`, `parseMetricType` and `parseVirtMetrics`;
  - the methods are proved against the specification functions `FindType`
    and `ParseFrom`.
- `ExpositionProperties` (exposition_properties.dfy): what the parser
  promises:
  - which lines give entries;
  - at most one entry per qualifying `# HELP` line, and exactly one, in
    order, on a well-formed body;
  - the first matching `# TYPE` line wins;
  - a missing type swallows the rest of the body;
  - the shape of the name and the description.
- `StaticCatalog` (catalog.dfy): `getMetricsNotIncludeInEndpointByDefault`.
- `Render` (render.dfy): the `writeToFile` functions as pure string
  rendering.
- `DocGenerator` (doc_generator.dfy): `main`, from the scrape to the
  document.
- `FeatureGates` (feature_gates.dfy):
  - the table;
  - `init`, modelled as an in-place loop over an array;
  - `DeprecatedFeatureGateInfo` and `isFeatureGateEnabled`.

Two details of the code matter to the model:
- Fields are split on every single space (`strings.Split(line, " ")`), so two
  spaces in a row give an empty field. The Prometheus text exposition format
  separates tokens by runs of whitespace; the generator does not.
- The `kubevirt_` filter is tested against the whole `# HELP` line. It is not
  tested against the name. A help line for another metric whose description
  mentions `kubevirt_` is parsed too. It gets its own type when its `# TYPE`
  line follows (lemma `ExpositionProperties.FilterMatchesWholeLine`), and `""`
  only when no such line follows (lemma
  `ExpositionProperties.MissingTypeSwallowsRest`).

Go panics are modelled as error results:
- an index past the end of a split line's fields gives `IndexOutOfRange`;
- a scanner read error gives `ScanFailed`;
- a status other than 200 gives `HttpStatus`.

The scrape, the metric-name constants of other packages, the recording rules
and the configured gate list are parameters.

## Model

| member | source | states |
|---|---|---|
| GoStrings.Split | tools/doc-generator/doc-generator.go:201 | `strings.Split` on a space always yields at least one piece, and no piece contains a space |
| GoStrings.JoinSplit | tools/doc-generator/doc-generator.go:201-204 | joining the pieces of a split with single spaces gives the line back |
| GoStrings.SplitJoin | tools/doc-generator/doc-generator.go:201-204 | splitting a join of space-free pieces gives the pieces back |
| GoStrings.SplitWord | tools/doc-generator/doc-generator.go:201 | a word without spaces splits into itself alone |
| GoStrings.SplitAfterWord | tools/doc-generator/doc-generator.go:201-202 | a space-free word followed by a space is the first field, and the rest is split on its own |
| GoStrings.Join | tools/doc-generator/doc-generator.go:204 | `strings.Join(parts, " ")`: the parts with one space between neighbours |
| GoStrings.HasPrefix | tools/doc-generator/doc-generator.go:211 | `strings.HasPrefix`: the text starts with the prefix (also line 227) |
| GoStrings.Contains | tools/doc-generator/doc-generator.go:228 | `strings.Contains`: the substring starts at the text's first character or is contained in the text after it |
| GoStrings.ContainsAt | tools/doc-generator/doc-generator.go:228 | `strings.Contains` holds exactly when the substring occurs at some offset (both directions) |
| GoStrings.ContainsWithin | tools/doc-generator/doc-generator.go:228 | a substring found in a part of the line is found in the whole line |
| GoStrings.IsSeparator | tools/doc-generator/doc-generator.go:203 | `strings.Title`'s word boundary: ASCII characters other than letters, digits and `_`, and the Unicode spaces (also line 214) |
| GoStrings.ToTitle | tools/doc-generator/doc-generator.go:203 | `unicode.ToTitle` on ASCII: a lower-case letter becomes its upper-case letter, any other character is kept (also line 214) |
| GoStrings.TitleAfter | tools/doc-generator/doc-generator.go:203 | `strings.Title` keeps the length of the text |
| GoStrings.Title | tools/doc-generator/doc-generator.go:203 | `strings.Title` keeps the length, title-cases the first character, and puts no space into text that has none |
| GoStrings.TitleKeepsNonSpaces | tools/doc-generator/doc-generator.go:203 | title-casing text without spaces gives text without spaces, so the title-cased field stays one field |
| GoStrings.TitleAt | tools/doc-generator/doc-generator.go:203 | each character is title-cased exactly when the character before it (a space at the start) is a word separator, and is unchanged otherwise |
| GoStrings.TitleIdempotent | tools/doc-generator/doc-generator.go:214 | title-casing an already title-cased text changes nothing, for any preceding character |
| GoStrings.TitleTitle | tools/doc-generator/doc-generator.go:214 | `strings.Title` applied twice equals applying it once |
| GoStrings.TitleAfterSameClass | tools/doc-generator/doc-generator.go:203 | two preceding characters that both separate words, or both do not, give the same title-cased text |
| GoStrings.TitleInsideWord | tools/doc-generator/doc-generator.go:203 | inside a word Title changes nothing |
| GoStrings.TitleWord | tools/doc-generator/doc-generator.go:203 | on a single word Title changes only its first character, to title case |
| GoStrings.TitleCapitalises | tools/doc-generator/doc-generator.go:214 | a type word starting with a lower-case letter starts with an upper-case letter after Title |
| Metrics.NameLess | tools/doc-generator/doc-generator.go:106 | Go's `<` on names: a name never sorts before itself, and a name sorts before every longer name it is a prefix of |
| Metrics.NameLessIrreflexive | tools/doc-generator/doc-generator.go:105-107 | no name sorts before itself |
| Metrics.NameLessTransitive | tools/doc-generator/doc-generator.go:105-107 | the name order is transitive |
| Metrics.NameLessAsymmetric | tools/doc-generator/doc-generator.go:105-107 | two names are never each before the other |
| Metrics.NameLessTotal | tools/doc-generator/doc-generator.go:105-107 | two different names are always ordered one way or the other |
| Metrics.NameLessEqTransitive | tools/doc-generator/doc-generator.go:105-107 | "not after" is transitive, so sorted neighbours give a sorted list |
| Metrics.MetricList.constructor | tools/doc-generator/doc-generator.go:121-187 | a new list holds exactly the given entries in a fresh backing array |
| Metrics.MetricList.Len | tools/doc-generator/doc-generator.go:99-102 | `Len` is the number of entries |
| Metrics.MetricList.Less | tools/doc-generator/doc-generator.go:104-107 | `Less(i, j)` compares the names; it is irreflexive and asymmetric, as `sort.Interface` requires |
| Metrics.MetricList.Swap | tools/doc-generator/doc-generator.go:109-112 | `Swap` exchanges entries i and j, changes no other entry, and keeps the multiset of entries |
| Metrics.MetricList.Append | tools/doc-generator/doc-generator.go:231 | appending through the pointer gives the old entries followed by the new one |
| Metrics.MetricList.Sort | tools/doc-generator/doc-generator.go:240 | `sort.Sort` leaves the entries sorted by name, as a permutation of the old entries, and leaves a sorted list unchanged |
| Metrics.MetricList.SinkLast | tools/doc-generator/doc-generator.go:240 | one insertion step extends the sorted prefix by one entry, keeps the multiset, and does not touch later entries |
| Metrics.InsertedSorted | tools/doc-generator/doc-generator.go:240 | once the moved entry is not after its left neighbour and is before every entry to its right, the whole prefix is sorted by name |
| Exposition.IsHelpCandidate | tools/doc-generator/doc-generator.go:227-228 | a line the loop parses: it starts with `# HELP ` and contains `kubevirt_` |
| Exposition.IsTypeLineFor | tools/doc-generator/doc-generator.go:211-213 | a line that ends the type search: it starts with `# TYPE ` and its field 2 is the name |
| Exposition.ParseMetricDesc | tools/doc-generator/doc-generator.go:200-206 | the name is field 2 and has no space; the description splits back into field 3 title-cased followed by fields 4 onwards |
| Exposition.MarkerFields | tools/doc-generator/doc-generator.go:201-202 | a line starting `# HELP ` or `# TYPE ` always has a field 2, which the source indexes unchecked |
| Exposition.FindType | tools/doc-generator/doc-generator.go:208-219 | a type search never moves the scanner backwards or past the end |
| Exposition.ParseFrom | tools/doc-generator/doc-generator.go:225-234 | what the scan loop appends from a line on: never more entries than lines left, and no entry's name contains a space |
| Exposition.ParseFromOther | tools/doc-generator/doc-generator.go:225-228 | a line that is not a `# HELP` line containing `kubevirt_` adds nothing |
| Exposition.ParseFromShort | tools/doc-generator/doc-generator.go:200-203 | a qualifying help line with fewer than four fields is an index-out-of-range failure |
| Exposition.ParseFromHelp | tools/doc-generator/doc-generator.go:229-231 | a qualifying help line adds the entry (name, description, type found), and parsing resumes where the type search stopped |
| Exposition.Scanner.constructor | tools/doc-generator/doc-generator.go:224 | a new scanner stands before the first line of the body |
| Exposition.Scanner.Scan | tools/doc-generator/doc-generator.go:225 | `Scan` advances to the next line and reports whether there was one |
| Exposition.Scanner.Err | tools/doc-generator/doc-generator.go:236 | a read error is reported only once the scanner has stopped at the end of the lines |
| Exposition.ParseMetricType | tools/doc-generator/doc-generator.go:208-219 | the method returns the type and scanner position of `FindType`: the title-cased field 3 of the first `# TYPE` line for the name, or `""` at end of input, or the failure when that line has no field 3 |
| Exposition.ScanEntry | tools/doc-generator/doc-generator.go:227-232 | on a qualifying help line, the loop body appends the entry `ParseFrom` describes and leaves the scanner where the type search stopped, or reports the parse failure |
| Exposition.ScanMetrics | tools/doc-generator/doc-generator.go:225-234 | the loop appends exactly the entries `ParseFrom` describes, in order, or returns its failure |
| Exposition.ParseVirtMetrics | tools/doc-generator/doc-generator.go:223-243 | a parse failure or a read error is returned; otherwise the list ends sorted by name, as a permutation of the old entries plus the parsed ones |
| ExpositionProperties.FindTypeAbsent | tools/doc-generator/doc-generator.go:208-219 | with no `# TYPE` line for the name ahead, the type is `""` and every line is consumed |
| ExpositionProperties.FindTypeFirstMatch | tools/doc-generator/doc-generator.go:209-215 | the first `# TYPE` line for the name decides the type, and the search stops just after it |
| ExpositionProperties.SkipNonCandidates | tools/doc-generator/doc-generator.go:225-228 | a stretch of non-qualifying lines contributes nothing |
| ExpositionProperties.NoCandidatesNoEntries | tools/doc-generator/doc-generator.go:225-234 | a body without qualifying help lines parses to no entries |
| ExpositionProperties.MissingTypeSwallowsRest | tools/doc-generator/doc-generator.go:208-219 | a help line with no matching `# TYPE` line yields a single entry with an empty type and ends the parse, whatever follows |
| ExpositionProperties.Candidates | tools/doc-generator/doc-generator.go:227-228 | the listed indices are qualifying help lines from the start position on |
| ExpositionProperties.CandidatesComplete | tools/doc-generator/doc-generator.go:227-228 | every qualifying help line is listed |
| ExpositionProperties.CandidatesShrink | tools/doc-generator/doc-generator.go:225-228 | starting later never finds more qualifying lines |
| ExpositionProperties.CandidatesSkip | tools/doc-generator/doc-generator.go:225-228 | skipping non-qualifying lines does not change the qualifying lines ahead |
| ExpositionProperties.AtMostOneEntryPerHelpLine | tools/doc-generator/doc-generator.go:225-234 | the parse never gives more entries than there are qualifying help lines |
| ExpositionProperties.OneEntryPerHelpLine | tools/doc-generator/doc-generator.go:225-234 | when each help line's `# TYPE` line comes before the next help line, the parse succeeds with one entry per help line, in order |
| ExpositionProperties.HelpLineFields | tools/doc-generator/doc-generator.go:201 | `# HELP <name> <word> <rest>` splits into `#`, `HELP`, the name, the word and the fields of the rest |
| ExpositionProperties.HelpLineParts | tools/doc-generator/doc-generator.go:200-206 | `# HELP <name> <word> <rest>` gives the name and the description `Title(word) + " " + rest` |
| ExpositionProperties.HelpLineOneWord | tools/doc-generator/doc-generator.go:200-206 | a one-word description is that word title-cased |
| ExpositionProperties.TypeLineParts | tools/doc-generator/doc-generator.go:211-213 | `# TYPE <name> <type>` is the type line for that name, with fields `#`, `TYPE`, name, type |
| ExpositionProperties.HelpThenType | tools/doc-generator/doc-generator.go:223-234 | a help line containing `kubevirt_` anywhere, followed by its type line, parses to one entry with the title-cased description and type |
| ExpositionProperties.FilterMatchesWholeLine | tools/doc-generator/doc-generator.go:228 | a help line whose description, and not necessarily its name, mentions `kubevirt_` still gives an entry, with the type of the `# TYPE` line that follows it |
| StaticCatalog.LiteralMetrics | tools/doc-generator/doc-generator.go:121-187 | the thirteen written-in entries: the four histograms at positions 7 to 10, gauges everywhere else |
| StaticCatalog.RuleMetric | tools/doc-generator/doc-generator.go:190-194 | a recording rule's entry: its record name, its description and its type title-cased |
| StaticCatalog.RuleMetrics | tools/doc-generator/doc-generator.go:189-195 | one entry per recording rule, in rule order: record name, description, title-cased type |
| StaticCatalog.GetMetricsNotIncludeInEndpointByDefault | tools/doc-generator/doc-generator.go:120-198 | the thirteen written-in entries in order, then one entry per recording rule |
| StaticCatalog.MigrationGaugesListed | tools/doc-generator/doc-generator.go:121-146 | the first five entries are the migration progress gauges, named by the collector's constants |
| Render.RenderMetric | tools/doc-generator/doc-generator.go:91-95 | a metric's block ends with the type's full stop, a line break and an empty line |
| Render.RenderList | tools/doc-generator/doc-generator.go:114-118 | an empty list writes nothing; otherwise the text starts with the first entry's block |
| Render.Document | tools/doc-generator/doc-generator.go:73-83 | the document starts with the opening and ends with the footer |
| Render.ConcatAppend | tools/doc-generator/doc-generator.go:114-118 | writing two runs of blocks writes each run in turn |
| Render.Blocks | tools/doc-generator/doc-generator.go:114-117 | there is one block per entry, and block i is the rendering of entry i |
| Render.BlocksAppend | tools/doc-generator/doc-generator.go:114-117 | the blocks of two lists one after the other are the blocks of each |
| Render.RenderListAppend | tools/doc-generator/doc-generator.go:114-118 | rendering a list in two parts renders each part in turn |
| Render.RenderListAt | tools/doc-generator/doc-generator.go:114-118 | each entry's block sits between the blocks of the entries before it and after it |
| Render.EntryInDocument | tools/doc-generator/doc-generator.go:114-118 | every entry of the list has its block in the rendered list |
| Render.FirstLineOf | tools/doc-generator/doc-generator.go:92 | the first line of text followed by a line break is that text |
| Render.BlockHeading | tools/doc-generator/doc-generator.go:91-95 | a metric's block starts with the line `### <name>` |
| DocGenerator.Publish | tools/doc-generator/doc-generator.go:61-83 | for a list starting as the given static entries: a non-200 scrape or a parse failure is an error; otherwise the document renders a name-sorted permutation of the static plus parsed entries between the opening and the footer |
| DocGenerator.Generate | tools/doc-generator/doc-generator.go:48-83 | a non-200 scrape and parse failures are errors; otherwise the document renders a name-sorted permutation of the static entries plus the parsed ones between the opening and the footer |
| FeatureGates.DeclaredGates | pkg/virt-config/deprecated-feature-gates.go:38-45 | six entries: five GA gates without a message, then Passt, deprecated, with its own message |
| FeatureGates.Sprintf | pkg/virt-config/deprecated-feature-gates.go:50-52 | `fmt.Sprintf` with `warningPattern`: the pattern's text before `%s`, the gate name, then the text after `%s` |
| FeatureGates.SprintfNamesArgument | pkg/virt-config/deprecated-feature-gates.go:50-52 | a message made from a single-`%s` format holds the gate name right after the format's opening text, so different gates get different warnings |
| FeatureGates.WarningNotEmpty | pkg/virt-config/deprecated-feature-gates.go:50-52 | the warning built from `warningPattern` is never empty |
| FeatureGates.WithDefaultMessage | pkg/virt-config/deprecated-feature-gates.go:49-53 | one entry keeps its name and state; a preset message is kept; an empty one becomes the formatted warning for the entry's name |
| FeatureGates.WithDefaultMessages | pkg/virt-config/deprecated-feature-gates.go:47-55 | `init` treats each entry on its own and keeps the table's length |
| FeatureGates.DefaultMessagesFilled | pkg/virt-config/deprecated-feature-gates.go:47-55 | after `init` names and states are unchanged, a preset message is kept, an empty one becomes the warning for the gate's name, and so, with a format that has opening text, every entry has a message |
| FeatureGates.Init | pkg/virt-config/deprecated-feature-gates.go:47-55 | the in-place pass leaves the table as `WithDefaultMessages` of the table before |
| FeatureGates.DeprecatedFeatureGateInfo | pkg/virt-config/deprecated-feature-gates.go:76-85 | the lookup gives nothing exactly when no entry has the name; otherwise an entry of the table with that name |
| FeatureGates.InfoIsFirstMatch | pkg/virt-config/deprecated-feature-gates.go:76-85 | the lookup returns the first entry with the name |
| FeatureGates.Listed | pkg/virt-config/deprecated-feature-gates.go:68-73 | the scan of the configured gates succeeds exactly when the gate is configured |
| FeatureGates.IsFeatureGateEnabled | pkg/virt-config/deprecated-feature-gates.go:57-74 | a gate is enabled only if it is configured or a table entry with its name is GA; a gate not in the table is enabled exactly when it is configured |
| FeatureGates.GAGateEnabled | pkg/virt-config/deprecated-feature-gates.go:57-62 | a GA gate is enabled whatever is configured |
| FeatureGates.DiscontinuedGateDisabled | pkg/virt-config/deprecated-feature-gates.go:57-64 | a discontinued gate is disabled whatever is configured |
| FeatureGates.OtherGateFollowsConfig | pkg/virt-config/deprecated-feature-gates.go:57-74 | a deprecated gate, or one not in the table, is enabled exactly when configured |
| FeatureGates.InfoAfterInit | pkg/virt-config/deprecated-feature-gates.go:47-55 | after `init` the lookup finds the same entry, with only its message filled in |
| FeatureGates.InitKeepsDecisions | pkg/virt-config/deprecated-feature-gates.go:47-74 | `init` changes no gate's enabled state |
| FeatureGates.DeclaredNamesDistinct | pkg/virt-config/deprecated-feature-gates.go:38-45 | with distinct gate constants, the declared entries have pairwise different names |
| FeatureGates.DeclaredLookup | pkg/virt-config/deprecated-feature-gates.go:38-45 | with distinct gate constants, each declared gate's lookup finds its own entry |
| FeatureGates.DeclaredGAGatesEnabled | pkg/virt-config/deprecated-feature-gates.go:38-43 | the five GA gates of the table are enabled whatever is configured, before and after `init` |
| FeatureGates.DeclaredPasstFollowsConfig | pkg/virt-config/deprecated-feature-gates.go:44 | the deprecated Passt gate is enabled exactly when configured, before and after `init` |
| FeatureGates.DeclaredMessagesAfterInit | pkg/virt-config/deprecated-feature-gates.go:38-55 | after `init` the GA gates carry the warning for their names, and Passt keeps its own message |

## Left out

- The HTTP handler, the fake collectors and the request: the scrape's status
  and body are an input. The recording rules and the collector's metric-name
  constants are inputs too.
- File creation, `Close` and `Fprint`: `Generate` returns the document as a
  string.
- `checkError`'s panic: it is modelled as an error result. Go's panic on an
  unchecked index is modelled the same way.
- `bufio.Scanner`'s token-size limit and line splitting: the body is given as
  the lines the scanner delivers, plus whether the stream ended in a read
  error.
- Exposition.ParseVirtMetrics: after a failure, the list is left unspecified.
  The one exception is a read error after a complete parse.
- GoStrings.ToTitle: models `unicode.ToTitle` only on ASCII letters. Other
  characters are left unchanged.
- GoStrings.IsSeparator: the letter and digit classes above ASCII are not
  modelled. There, only Unicode spaces separate words.
- Metrics.MetricList.Sort: it is an insertion sort, which is what
  `sort.Sort` runs on short slices. It is not Go's pattern-defeating
  quicksort. The order of entries with equal names is not specified, and
  neither is Go's.
- Metrics.NameLess: compares code points, not UTF-8 bytes. The two orders
  agree.
- The configured feature gates are an input. The cluster configuration
  object and how it is read are not modelled.
- The copy returned by `DeprecatedFeatureGateInfo` is a value, so changing
  it cannot change the table. Dafny's value semantics give this without a
  lemma.
- The state strings, including GA's spelling "Genraly Available", become
  the datatype `FeatureGates.State`.
