# Maven dependency updater: dependency index and HTML report table

This project models two parts of the maven-dependency-updater tool in Dafny and proves properties of them.

**The per-module dependency index** (`PmeDependencyCollector`, module `ProjectParser` in `project_parser.dfy`).
The project parser returns a list of project nodes. For each node the collector takes the key sets of the resolved managed-dependency map and the resolved direct-dependency map. It drops every artifact reference whose version string contains `&`, the marker left by a failed interpolation. It unions the survivors into one set and puts that set into a map keyed by the node's (groupId, artifactId) coordinate. A later node with the same coordinate replaces an earlier one.
The map can be read whole, by coordinate, or for the root. The root is the first node flagged as inheritance root. Construction fails when no node is a root.
The collector is a class. Its constructor fills the `projectsDependencies` map with a loop, and `CollectDependencies` grows a set with a loop. Both are proved against the specification functions `PutAll`/`Index` and `Resolved`/`DependencySet`. The lemmas then prove what those functions promise: which keys exist, that the last put wins, that no stored reference is unresolved, and that every stored value comes from some project.
The same module has the step at the end of `parseSettings` that copies the ids of the selected profiles into the effective settings.

**The HTML report table** (`HtmlReportProcessingStrategy`, module `ProcessingStrategies` in `html_report.dfy`).
The column set is GAV, New Version, Repository, plus Since when the first-seen logger is set. Each data row has those columns in the same order.
A row is highlighted with the "new" background exactly when the upgrade has no first-seen date and the logger is set. The GAV cell reads `g:a:v`, and the Since cell reads `new` or the formatted date.
Each repository label gets one of four background colours, cycled by the key's position in the configured key order. The Java `indexOf` gives -1 for an unknown key, and `-1 % 4` is -1 in Java, so the array access throws.
The footer reads "<count> items" and always has colspan "4".
`process` returns at once on an empty list. Otherwise it builds the legend, the headers, one row per aggregated upgrade and the footer, or it fails with "Report generation failed".
Headers and cells are records of content and style fragments. A style attribute is the concatenation of its fragments in order, and the HTML tree itself is not modelled.

`wrappers.dfy` holds the `Option` type, which stands in for a Java `null` or a thrown exception. `refs.dfy` holds the coordinate, artifact-reference, project, profile and settings records.

## Model

| member | source | states |
|---|---|---|
| ProjectParser.FirstRootIndex | pme-dependency-collector/src/main/java/org/jboss/set/mavendependencyupdater/projectparser/PmeDependencyCollector.java:103 | The position of the first project flagged as inheritance root: every earlier project is not a root. The result is absent exactly when no project is a root. |
| ProjectParser.PmeDependencyCollector.Create | pme-dependency-collector/src/main/java/org/jboss/set/mavendependencyupdater/projectparser/PmeDependencyCollector.java:98-107 | Construction fails (the `get()` on an empty Optional) exactly when no project is a root. Otherwise the new collector holds the parsed projects, its root coordinate is the first root's, and its index is `Index(projects)`. |
| ProjectParser.PmeDependencyCollector.constructor | pme-dependency-collector/src/main/java/org/jboss/set/mavendependencyupdater/projectparser/PmeDependencyCollector.java:98-107 | Given a list with a root, it stores the list, sets the root coordinate from the first root, and builds the index. |
| ProjectParser.PmeDependencyCollector.CollectProjectDependencies | pme-dependency-collector/src/main/java/org/jboss/set/mavendependencyupdater/projectparser/PmeDependencyCollector.java:123-131 | The loop puts one fresh set per project, in list order, under the project's coordinate. The map becomes `PutAll(old map, projects)`, and the projects and root coordinate do not change. |
| ProjectParser.CollectDependencies | pme-dependency-collector/src/main/java/org/jboss/set/mavendependencyupdater/projectparser/PmeDependencyCollector.java:133-137 | The target only grows. The result is exactly the target plus the references of the key set whose version has no `&`. |
| ProjectParser.ManagedDirectOrderIrrelevant | pme-dependency-collector/src/main/java/org/jboss/set/mavendependencyupdater/projectparser/PmeDependencyCollector.java:125-129 | Adding the managed references before the direct ones gives the same set as the reverse order. |
| ProjectParser.DependencySetMembers | pme-dependency-collector/src/main/java/org/jboss/set/mavendependencyupdater/projectparser/PmeDependencyCollector.java:133-136 | A reference is in a project's set exactly when it is a managed or direct reference of that project and its version has no `&`. Nothing else is added and no survivor is lost. |
| ProjectParser.PutAllIgnoresVersion | pme-dependency-collector/src/main/java/org/jboss/set/mavendependencyupdater/projectparser/PmeDependencyCollector.java:232-234 | The coordinate ignores the version: giving any one project another version leaves the whole map built by the puts unchanged. |
| ProjectParser.PutAllKeys | pme-dependency-collector/src/main/java/org/jboss/set/mavendependencyupdater/projectparser/PmeDependencyCollector.java:124-126 | After the puts, the keys are the old keys plus the coordinates of the projects. |
| ProjectParser.IndexKeys | pme-dependency-collector/src/main/java/org/jboss/set/mavendependencyupdater/projectparser/PmeDependencyCollector.java:124-126 | The index keys are exactly the coordinates of the parsed projects. |
| ProjectParser.PutAllLastWins | pme-dependency-collector/src/main/java/org/jboss/set/mavendependencyupdater/projectparser/PmeDependencyCollector.java:124-126 | If no later project shares a project's coordinate, the entry under that coordinate is that project's set. The later put replaces the earlier one. |
| ProjectParser.PutAllValues | pme-dependency-collector/src/main/java/org/jboss/set/mavendependencyupdater/projectparser/PmeDependencyCollector.java:124-129 | Every stored value is either the old entry or the set of some project with that coordinate. |
| ProjectParser.NoUnresolvedInIndex | pme-dependency-collector/src/main/java/org/jboss/set/mavendependencyupdater/projectparser/PmeDependencyCollector.java:133-136 | No reference stored anywhere in the index has a version containing `&`. |
| ProjectParser.IndexSize | pme-dependency-collector/src/main/java/org/jboss/set/mavendependencyupdater/projectparser/PmeDependencyCollector.java:124-126 | When the coordinates are pairwise distinct, the index has exactly one entry per project. |
| ProjectParser.PmeDependencyCollector.GetAllProjectsDependencies | pme-dependency-collector/src/main/java/org/jboss/set/mavendependencyupdater/projectparser/PmeDependencyCollector.java:109-112 | Returns the whole index, whose keys are the coordinates of the projects. |
| ProjectParser.PmeDependencyCollector.GetProjectDependencies | pme-dependency-collector/src/main/java/org/jboss/set/mavendependencyupdater/projectparser/PmeDependencyCollector.java:114-117 | Returns the set stored under (groupId, artifactId). It is absent (null in the source) exactly when no project has that coordinate. A returned set holds no unresolved reference. |
| ProjectParser.PmeDependencyCollector.GetRootProjectDependencies | pme-dependency-collector/src/main/java/org/jboss/set/mavendependencyupdater/projectparser/PmeDependencyCollector.java:119-121 | Returns the entry under the first root's coordinate, which is always a key, wherever the root sits in the list. This is the last project with that coordinate at or after the root. |
| ProjectParser.ReplaceActiveProfiles | pme-dependency-collector/src/main/java/org/jboss/set/mavendependencyupdater/projectparser/PmeDependencyCollector.java:223-227 | The active-profile list becomes exactly the ids of the selected profiles, in their order and of their number. The declared profiles stay the same. |
| ProcessingStrategies.Columns | core/src/main/java/org/jboss/set/mavendependencyupdater/core/processingstrategies/HtmlReportProcessingStrategy.java:130-139 | There are 3 columns without the logger and 4 with it. The first three are GAV, New Version, Repository. Since is present exactly when the logger is set. |
| ProcessingStrategies.HeadersShape | core/src/main/java/org/jboss/set/mavendependencyupdater/core/processingstrategies/HtmlReportProcessingStrategy.java:130-139 | The header texts are GAV, New Version and Repository, then Since when the logger is set. Every header has the table-cell style. |
| ProcessingStrategies.HtmlReportProcessingStrategy.TableHeaders | core/src/main/java/org/jboss/set/mavendependencyupdater/core/processingstrategies/HtmlReportProcessingStrategy.java:130-139 | The list built by conditional adds equals the header of each column in column order. |
| ProcessingStrategies.HtmlReportProcessingStrategy.TableRowData | core/src/main/java/org/jboss/set/mavendependencyupdater/core/processingstrategies/HtmlReportProcessingStrategy.java:141-159 | The list built by conditional adds equals the row cell of each column in column order. It fails exactly when the upgrade's repository has no colour. |
| ProcessingStrategies.RowMatchesHeaders | core/src/main/java/org/jboss/set/mavendependencyupdater/core/processingstrategies/HtmlReportProcessingStrategy.java:141-159 | A row has exactly as many cells as there are headers, and cell i belongs to the column of header i. |
| ProcessingStrategies.RowHighlighting | core/src/main/java/org/jboss/set/mavendependencyupdater/core/processingstrategies/HtmlReportProcessingStrategy.java:142-156 | A cell carries the "new" background exactly when firstSeen is absent and the logger is set. So either every cell of the row has it or none does. |
| ProcessingStrategies.RowTexts | core/src/main/java/org/jboss/set/mavendependencyupdater/core/processingstrategies/HtmlReportProcessingStrategy.java:145-155 | The GAV cell is groupId:artifactId:version. The next cells are the new version and the repository label with its colour. With the logger set, the Since cell is "new" or the formatted first-seen date. |
| ProcessingStrategies.IndexOf | core/src/main/java/org/jboss/set/mavendependencyupdater/core/processingstrategies/HtmlReportProcessingStrategy.java:166 | Gives the first position of the key, or -1 exactly when the key is absent. |
| ProcessingStrategies.JavaRem | core/src/main/java/org/jboss/set/mavendependencyupdater/core/processingstrategies/HtmlReportProcessingStrategy.java:167 | Java's remainder for a positive divisor. It rebuilds the dividend together with the quotient truncated toward zero, is smaller than the divisor in magnitude, and takes the dividend's sign. These facts determine it, so `-1 % 4` is -1. |
| ProcessingStrategies.RepositoryColor | core/src/main/java/org/jboss/set/mavendependencyupdater/core/processingstrategies/HtmlReportProcessingStrategy.java:165-168 | A colour exists exactly when the key is configured. The colour is BACKGROUNDS[position mod 4]. An unknown key gives index -1, which is out of bounds. |
| ProcessingStrategies.UnknownKeySlot | core/src/main/java/org/jboss/set/mavendependencyupdater/core/processingstrategies/HtmlReportProcessingStrategy.java:166-167 | For a key that is not configured, `indexOf` gives -1 and the remainder slot is -1, an index outside BACKGROUNDS. |
| ProcessingStrategies.ColorsCycle | core/src/main/java/org/jboss/set/mavendependencyupdater/core/processingstrategies/HtmlReportProcessingStrategy.java:165-168 | Among distinct keys, the key at position i gets BACKGROUNDS[i mod 4]. Keys whose positions differ by a multiple of 4 share a colour. |
| ProcessingStrategies.HtmlReportProcessingStrategy.InitRepositoryKeys | core/src/main/java/org/jboss/set/mavendependencyupdater/core/processingstrategies/HtmlReportProcessingStrategy.java:161-163 | The key list becomes the configured repository keys, in configuration order. |
| ProcessingStrategies.HtmlReportProcessingStrategy.constructor | core/src/main/java/org/jboss/set/mavendependencyupdater/core/processingstrategies/HtmlReportProcessingStrategy.java:65-78 | Stores the configuration and formatter and initialises the key list from the configuration. |
| ProcessingStrategies.Rows | core/src/main/java/org/jboss/set/mavendependencyupdater/core/processingstrategies/HtmlReportProcessingStrategy.java:109 | The rows succeed exactly when every upgrade's repository is configured. On success there is one row per upgrade, in order. |
| ProcessingStrategies.HtmlReportProcessingStrategy.TableRows | core/src/main/java/org/jboss/set/mavendependencyupdater/core/processingstrategies/HtmlReportProcessingStrategy.java:109 | The loop calling tableRowData on each aggregated upgrade equals `Rows`. It fails exactly when some upgrade's repository has no colour, and otherwise gives one row per upgrade, in order. |
| ProcessingStrategies.Legend | core/src/main/java/org/jboss/set/mavendependencyupdater/core/processingstrategies/HtmlReportProcessingStrategy.java:98-105 | The repository list succeeds exactly when every key has a colour. On success, item i is a label with entry i's key, styled with the label style and BACKGROUNDS[position of the key mod 4], followed by the text " " + the entry's URL. |
| ProcessingStrategies.LegendOfConfiguration | core/src/main/java/org/jboss/set/mavendependencyupdater/core/processingstrategies/HtmlReportProcessingStrategy.java:98-105 | Over the keys taken from the configuration, the repository list never fails. |
| ProcessingStrategies.NatToString | core/src/main/java/org/jboss/set/mavendependencyupdater/core/processingstrategies/HtmlReportProcessingStrategy.java:110 | The decimal text of the count: non-empty, all digits, no leading zero, and its digits denote exactly the count. |
| ProcessingStrategies.ReportShape | core/src/main/java/org/jboss/set/mavendependencyupdater/core/processingstrategies/HtmlReportProcessingStrategy.java:106-110 | A rendered report has a non-empty input and one row per aggregated upgrade. Each row is as wide as the headers. The footer reads "<count> items" with colspan "4" whatever the column count. |
| ProcessingStrategies.ProcessFailsOnUnknownRepository | core/src/main/java/org/jboss/set/mavendependencyupdater/core/processingstrategies/HtmlReportProcessingStrategy.java:80-128 | Over the configured keys, process fails exactly when the input is non-empty and some aggregated upgrade names a repository that is not configured. |
| ProcessingStrategies.HtmlReportProcessingStrategy.Process | core/src/main/java/org/jboss/set/mavendependencyupdater/core/processingstrategies/HtmlReportProcessingStrategy.java:80-128 | An empty list gives "nothing to report" with no output. For a non-empty list, over the configured keys, the result is a failure exactly when some aggregated upgrade names a repository that is not configured. A rendered report has one row per aggregated upgrade and the footer for their count. In every case the result is the legend, the headers, the rows and the footer of `ExpectedOutcome`. |

## Behaviour of the code worth knowing

- The root is the first project flagged as inheritance root, even when several are flagged.
- A later project with the same coordinate replaces the earlier entry. The root accessor then returns the later project's set.
- A lookup of an unknown coordinate returns `null`, which the model writes as `None`.
- Merging the settings layers and activating profiles are left to Maven's libraries. The code itself only copies the ids of the selected profiles.

## Left out

- Plexus container setup, component lookups and Maven session construction (pme-dependency-collector/src/main/java/org/jboss/set/mavendependencyupdater/projectparser/PmeDependencyCollector.java:139-198): framework plumbing and calls into code that is not part of this model.
- Settings merging (`SettingsBuilder`, pme-dependency-collector/src/main/java/org/jboss/set/mavendependencyupdater/projectparser/PmeDependencyCollector.java:200-209), the conversion of settings profiles (pme-dependency-collector/src/main/java/org/jboss/set/mavendependencyupdater/projectparser/PmeDependencyCollector.java:214-217) and profile activation (`ProfileSelector`, pme-dependency-collector/src/main/java/org/jboss/set/mavendependencyupdater/projectparser/PmeDependencyCollector.java:211-222): these happen inside Maven libraries that are not part of this model. The selector's result is an input to `ReplaceActiveProfiles`. Precedence between user and global settings and the activation rules are not modelled.
- `pomIO.parseProject` and `getResolvedManagedDependencies`/`getResolvedDependencies` (pme-dependency-collector/src/main/java/org/jboss/set/mavendependencyupdater/projectparser/PmeDependencyCollector.java:101, pme-dependency-collector/src/main/java/org/jboss/set/mavendependencyupdater/projectparser/PmeDependencyCollector.java:128-129): the external parser and interpolation. Their output is the input list of `Project` records, and each resolved map is reduced to its key set. The `Dependency` values are never read. A `ManipulationException` from the parser is not modelled.
- Logging (`LOG.infof("Creating collector for project %s")` at pme-dependency-collector/src/main/java/org/jboss/set/mavendependencyupdater/projectparser/PmeDependencyCollector.java:99, `LOG.info("No components to upgrade.")` at core/src/main/java/org/jboss/set/mavendependencyupdater/core/processingstrategies/HtmlReportProcessingStrategy.java:84): output only, with no effect on the results.
- The deprecated `main` CLI (pme-dependency-collector/src/main/java/org/jboss/set/mavendependencyupdater/projectparser/PmeDependencyCollector.java:58-96) and the reads of `System.getenv`/`System.getProperty`: I/O.
- ProjectParser.PmeDependencyCollector.CollectProjectDependencies: in the source, the map holds the same `HashSet` object that is then grown in place. The model stores the grown set again under the same key, which gives the same final map. Sharing of that object with callers, who receive the live, modifiable collection, is not captured.
- ProjectParser.PmeDependencyCollector.constructor: it requires a root, because the source's constructor would throw without one. The throwing path is modelled by `Create`.
- j2html DOM construction and rendering, the output stream and its closing, the `Generated on` timestamp from `ZonedDateTime.now()`, the heading, caption and footer link (core/src/main/java/org/jboss/set/mavendependencyupdater/core/processingstrategies/HtmlReportProcessingStrategy.java:87, core/src/main/java/org/jboss/set/mavendependencyupdater/core/processingstrategies/HtmlReportProcessingStrategy.java:95-127): UI and I/O. Only the legend items, the header and row cells and the footer cell are modelled. The styles of the surrounding div, list, list items, table and caption are not.
- Failures of `initOutputStream` (core/src/main/java/org/jboss/set/mavendependencyupdater/core/processingstrategies/HtmlReportProcessingStrategy.java:87): I/O.
- `ComponentUpgradeComparator` and `ComponentUpgradeAggregator` (core/src/main/java/org/jboss/set/mavendependencyupdater/core/processingstrategies/HtmlReportProcessingStrategy.java:89-92): not part of this model. Sorting followed by aggregation is the function parameter `sortAndAggregate` of `Process`.
- The date formatter of the superclass: not part of this model. It is the function field `dateFormatter`.
- `Configuration`: reduced to the repositories, as a sequence of (key, URL) entries in key-set iteration order, and the "logger is set" flag. That sequence does not enforce distinct keys, so `ColorsCycle` requires them.
- `process` returns `true` for both `NothingToReport` and `Reported`. The boolean itself is not modelled separately.
